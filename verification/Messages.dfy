/** The generated codec of `DenomTrace` and `Height`: buffers filled backwards, one-pass decoding,
    and the trace store built on it.

    modules/apps/transfer/types/transfer.pb.go, modules/core/02-client/types/client.pb.go,
    modules/apps/transfer/keeper/keeper.go. */
module Messages {
  import opened Basics
  import opened Denoms
  import opened Heights
  import opened Wire

  // ---------------------------------------------------------------- what is encoded

  datatype Trace = Trace(path: seq<byte>, baseDenom: seq<byte>)
  {
    function With(f: Field): Trace {
      match f
      case Bytes(1, b) => this.(path := b)
      case Bytes(2, b) => this.(baseDenom := b)
      case _ => this
    }
  }

  function EncodeTrace(t: Trace): seq<byte> {
    BytesField(1, t.path) + BytesField(2, t.baseDenom)
  }

  /** Fields are assigned in the order in which they come. */
  function FillTrace(t: Trace, fields: seq<Field>): Trace
    decreases |fields|
  {
    if fields == [] then t else FillTrace(t.With(fields[0]), fields[1..])
  }

  /** Decoding into a message that already holds `t`. */
  function DecodeTrace(s: seq<byte>, t: Trace): Option<Trace>
    requires |s| <= MAX_INT
  {
    var fields := Fields(s, Delimited);
    if fields.Some? then Some(FillTrace(t, fields.value)) else None
  }

  function EncodeHeight(h: Height): seq<byte> {
    NumField(1, h.revisionNumber) + NumField(2, h.revisionHeight)
  }

  function WithNumber(h: Height, f: Field): Height {
    match f
    case Num(1, v) => h.(revisionNumber := v)
    case Num(2, v) => h.(revisionHeight := v)
    case _ => h
  }

  function FillHeight(h: Height, fields: seq<Field>): Height
    decreases |fields|
  {
    if fields == [] then h else FillHeight(WithNumber(h, fields[0]), fields[1..])
  }

  function DecodeHeight(s: seq<byte>, h: Height): Option<Height>
    requires |s| <= MAX_INT
  {
    var fields := Fields(s, Numeric);
    if fields.Some? then Some(FillHeight(h, fields.value)) else None
  }

  lemma FillTraceCons(t: Trace, f: Field, rest: seq<Field>)
    ensures FillTrace(t, [f] + rest) == FillTrace(t.With(f), rest) && FillTrace(t, [] + rest) == FillTrace(t, rest)
  {
    assert ([f] + rest)[1..] == rest && [] + rest == rest;
  }

  lemma FillHeightCons(h: Height, f: Field, rest: seq<Field>)
    ensures FillHeight(h, [f] + rest) == FillHeight(WithNumber(h, f), rest) && FillHeight(h, [] + rest) == FillHeight(h, rest)
  {
    assert ([f] + rest)[1..] == rest && [] + rest == rest;
  }

  /** Every trace whose encoding a program can hold comes back from its bytes. */
  lemma TraceRoundTrip(t: Trace)
    requires |EncodeTrace(t)| <= MAX_INT
    ensures DecodeTrace(EncodeTrace(t), Trace([], [])) == Some(t)
  {
    hide BytesField, Fields;
    BytesFieldReads(1, t.path);
    BytesFieldReads(2, t.baseDenom);
    FieldsAppend(BytesField(1, t.path), BytesField(2, t.baseDenom), Delimited);
    var y := if t.baseDenom == [] then [] else [Bytes(2, t.baseDenom)];
    FillTraceCons(Trace([], []), Bytes(1, t.path), y);
    FillTraceCons(Trace(t.path, []), Bytes(2, t.baseDenom), []);
    assert y + [] == y;
  }

  /** So does every height of two 64-bit numbers. */
  lemma HeightRoundTrip(h: Height)
    requires h.revisionNumber < TWO_TO_THE_64 && h.revisionHeight < TWO_TO_THE_64
    ensures |EncodeHeight(h)| <= 22 && DecodeHeight(EncodeHeight(h), Height(0, 0)) == Some(h)
  {
    hide NumField, Fields;
    NumFieldReads(1, h.revisionNumber);
    NumFieldReads(2, h.revisionHeight);
    FieldsAppend(NumField(1, h.revisionNumber), NumField(2, h.revisionHeight), Numeric);
    var y := if h.revisionHeight == 0 then [] else [Num(2, h.revisionHeight)];
    FillHeightCons(Height(0, 0), Num(1, h.revisionNumber), y);
    FillHeightCons(Height(h.revisionNumber, 0), Num(2, h.revisionHeight), []);
    assert y + [] == y;
  }

  /** An unknown field anywhere between the fields changes nothing, for traces and for heights. */
  lemma UnknownFieldIgnored(a: seq<byte>, u: seq<byte>, b: seq<byte>, t: Trace, h: Height)
    requires |a + u + b| <= MAX_INT
    ensures Fields(a, Delimited).Some? && UnknownField(u, Delimited) ==> DecodeTrace(a + u + b, t) == DecodeTrace(a + b, t)
    ensures Fields(a, Numeric).Some? && UnknownField(u, Numeric) ==> DecodeHeight(a + u + b, h) == DecodeHeight(a + b, h)
  {
    hide Fields, UnknownField;
    if Fields(a, Delimited).Some? && UnknownField(u, Delimited) {
      UnknownFieldTransparent(a, u, b, Delimited);
    }
    if Fields(a, Numeric).Some? && UnknownField(u, Numeric) {
      UnknownFieldTransparent(a, u, b, Numeric);
    }
  }

  lemma DecodeTraceStep(s: seq<byte>, t: Trace)
    requires 0 < |s| <= MAX_INT
    ensures var f := ReadField(s, Delimited);
            DecodeTrace(s, t) == if f.None? then None
                                 else DecodeTrace(s[f.value.size..], if f.value.field.Some? then t.With(f.value.field.value) else t)
  {
    hide ReadField, Fields;
    if ReadField(s, Delimited).Some? {
      FieldsStep(s, Delimited);
      var f := ReadField(s, Delimited).value;
      if Fields(s[f.size..], Delimited).Some? {
        FillTraceCons(t, if f.field.Some? then f.field.value else Num(0, 0), Fields(s[f.size..], Delimited).value);
      }
    } else {
      assert Fields(s, Delimited).None? by { NoField(s, Delimited); }
    }
  }

  lemma DecodeHeightStep(s: seq<byte>, h: Height)
    requires 0 < |s| <= MAX_INT
    ensures var f := ReadField(s, Numeric);
            DecodeHeight(s, h) == if f.None? then None
                                  else DecodeHeight(s[f.value.size..], if f.value.field.Some? then WithNumber(h, f.value.field.value) else h)
  {
    hide ReadField, Fields;
    if ReadField(s, Numeric).Some? {
      FieldsStep(s, Numeric);
      var f := ReadField(s, Numeric).value;
      if Fields(s[f.size..], Numeric).Some? {
        FillHeightCons(h, if f.field.Some? then f.field.value else Num(0, 0), Fields(s[f.size..], Numeric).value);
      }
    } else {
      assert Fields(s, Numeric).None? by { NoField(s, Numeric); }
    }
  }

  lemma AssignedTraceStep(s: seq<byte>, t: Trace)
    requires 0 < |s| <= MAX_INT
    ensures var f := ReadField(s, Delimited);
            FillTrace(t, Assigned(s, Delimited))
            == if f.None? then t
               else FillTrace(if f.value.field.Some? then t.With(f.value.field.value) else t, Assigned(s[f.value.size..], Delimited))
  {
    hide ReadField;
    var f := ReadField(s, Delimited);
    if f.Some? {
      FillTraceCons(t, if f.value.field.Some? then f.value.field.value else Num(0, 0), Assigned(s[f.value.size..], Delimited));
    }
  }

  lemma AssignedHeightStep(s: seq<byte>, h: Height)
    requires 0 < |s| <= MAX_INT
    ensures var f, torn := ReadField(s, Numeric), TornField(s, Numeric);
            FillHeight(h, Assigned(s, Numeric))
            == if f.None? then (if torn.Some? then WithNumber(h, torn.value) else h)
               else FillHeight(if f.value.field.Some? then WithNumber(h, f.value.field.value) else h, Assigned(s[f.value.size..], Numeric))
  {
    hide ReadField, TornField;
    var f, torn := ReadField(s, Numeric), TornField(s, Numeric);
    if f.Some? {
      FillHeightCons(h, if f.value.field.Some? then f.value.field.value else Num(0, 0), Assigned(s[f.value.size..], Numeric));
    } else if torn.Some? {
      FillHeightCons(h, torn.value, []);
      assert [torn.value] + [] == [torn.value];
    }
  }

  lemma AssignedTraceEnd(t: Trace)
    ensures FillTrace(t, Assigned([], Delimited)) == t && DecodeTrace([], t) == Some(t)
  {
  }

  lemma AssignedHeightEnd(h: Height)
    ensures FillHeight(h, Assigned([], Numeric)) == h && DecodeHeight([], h) == Some(h)
  {
  }

  // ---------------------------------------------------------------- writing

  /** `a` with `x` written over it from position `i`. */
  function Splice(a: seq<byte>, i: nat, x: seq<byte>): (r: seq<byte>)
    requires i + |x| <= |a|
    ensures |r| == |a|
  {
    a[..i] + x + a[i + |x|..]
  }

  lemma SpliceNothing(a: seq<byte>, i: nat)
    requires i <= |a|
    ensures Splice(a, i, []) == a
  {
  }

  lemma SpliceOne(a: seq<byte>, i: nat, x: seq<byte>, b: byte)
    requires i + |x| < |a|
    ensures Splice(a, i, x)[i + |x| := b] == Splice(a, i, x + [b])
  {
  }

  /** Writing just before what was written last. */
  lemma SplicePrepend(a: seq<byte>, i: nat, x: seq<byte>, y: seq<byte>)
    requires i + |x| + |y| <= |a|
    ensures Splice(Splice(a, i + |x|, y), i, x) == Splice(a, i, x + y)
  {
    var b := Splice(a, i + |x|, y);
    assert b[..i] == a[..i];
    assert b[i + |x|..] == y + a[i + |x| + |y|..];
  }

  /** `encodeVarintTransfer`: writes the varint so that it ends before `offset`. */
  method EncodeVarint(dAtA: array<byte>, offset: nat, v: nat) returns (base: nat)
    requires |Varint(v)| <= offset <= dAtA.Length
    modifies dAtA
    ensures base == offset - |Varint(v)|
    ensures dAtA[..] == Splice(old(dAtA[..]), base, Varint(v))
  {
    hide Varint, Splice;
    SovIsSize(v);
    base := offset - Sov(v);
    var i, w := base, v;
    ghost var was, done: seq<byte> := dAtA[..], [];
    SpliceNothing(was, base);
    while w >= 128
      invariant i == base + |done| && i + |Varint(w)| == offset && |was| == dAtA.Length
      invariant Varint(v) == done + Varint(w)
      invariant dAtA[..] == Splice(was, base, done)
      decreases w
    {
      VarintSplits(w, done);
      SpliceOne(was, base, done, w % 128 + 128);
      dAtA[i] := w % 128 + 128;
      done := done + [w % 128 + 128];
      w := w / 128;
      i := i + 1;
    }
    VarintSplits(w, done);
    SpliceOne(was, base, done, w);
    dAtA[i] := w;
  }

  lemma VarintSplits(w: nat, done: seq<byte>)
    ensures |Varint(w)| == if w < 128 then 1 else 1 + |Varint(w / 128)|
    ensures done + Varint(w) == if w < 128 then done + [w] else done + [w % 128 + 128] + Varint(w / 128)
  {
  }

  /** `copy(dAtA[i:], data)`. */
  method CopyInto(dAtA: array<byte>, i: nat, data: seq<byte>)
    requires i + |data| <= dAtA.Length
    modifies dAtA
    ensures dAtA[..] == Splice(old(dAtA[..]), i, data)
  {
    forall k | 0 <= k < |data| {
      dAtA[i + k] := data[k];
    }
  }

  /** Writes one length-delimited field so that it ends at `end`. */
  method EncodeBytesField(dAtA: array<byte>, end: nat, number: nat, data: seq<byte>) returns (i: nat)
    requires number < 16 && |BytesField(number, data)| <= end <= dAtA.Length
    modifies dAtA
    ensures i == end - |BytesField(number, data)|
    ensures dAtA[..] == Splice(old(dAtA[..]), i, BytesField(number, data))
  {
    hide Varint, Splice, BytesField;
    BytesFieldParts(number, data);
    ghost var was := dAtA[..];
    i := end;
    if |data| > 0 {
      i := i - |data|;
      CopyInto(dAtA, i, data);
      i := EncodeVarint(dAtA, i, |data|);
      ghost var l := Varint(|data|);
      SplicePrepend(was, i, l, data);
      i := i - 1;
      SetByte(dAtA, i, 8 * number + 2);
      SplicePrepend(was, i, [8 * number + 2], l + data);
    } else {
      SpliceNothing(was, end);
    }
  }

  lemma BytesFieldParts(number: nat, data: seq<byte>)
    requires number < 16
    ensures BytesField(number, data) == if data == [] then [] else [8 * number + 2] + (Varint(|data|) + data)
    ensures |BytesField(number, data)| == if data == [] then 0 else 1 + |Varint(|data|)| + |data|
  {
  }

  method SetByte(dAtA: array<byte>, i: nat, b: byte)
    requires i < dAtA.Length
    modifies dAtA
    ensures dAtA[..] == Splice(old(dAtA[..]), i, [b])
  {
    dAtA[i] := b;
  }

  method EncodeNumField(dAtA: array<byte>, end: nat, number: nat, v: nat) returns (i: nat)
    requires number < 16 && |NumField(number, v)| <= end <= dAtA.Length
    modifies dAtA
    ensures i == end - |NumField(number, v)|
    ensures dAtA[..] == Splice(old(dAtA[..]), i, NumField(number, v))
  {
    hide Varint, Splice;
    ghost var was := dAtA[..];
    i := end;
    if v != 0 {
      i := EncodeVarint(dAtA, i, v);
      i := i - 1;
      SetByte(dAtA, i, 8 * number);
      SplicePrepend(was, i, [8 * number], Varint(v));
    } else {
      SpliceNothing(was, end);
    }
  }

  // ---------------------------------------------------------------- reading

  lemma {:induction false} Base128Append(s: seq<byte>, b: byte)
    ensures Base128(s + [b]) == Base128(s) + b % 128 * Pow2(7 * |s|)
  {
    if s != [] {
      var rest := s[1..];
      Base128Append(rest, b);
      assert (s + [b])[1..] == rest + [b];
      Pow2Septet(7 * |rest|);
      var x, p := b % 128, Pow2(7 * |rest|);
      assert 128 * (x * p) == x * (128 * p);
    } else {
      assert (s + [b])[1..] == [];
    }
  }

  lemma Pow2Septet(k: nat)
    ensures Pow2(k + 7) == 128 * Pow2(k)
  {
    assert Pow2(k + 7) == 2 * Pow2(k + 6) == 4 * Pow2(k + 5) == 8 * Pow2(k + 4);
    assert Pow2(k + 4) == 2 * Pow2(k + 3) == 4 * Pow2(k + 2) == 8 * Pow2(k + 1);
  }

  /** Where a varint ends, given that its first `n` bytes are marked. */
  lemma {:induction false} VarintEnds(s: seq<byte>, n: nat, limit: nat)
    requires n <= |s| && n <= limit && forall k :: 0 <= k < n ==> s[k] >= 128
    ensures n == |s| || n == limit ==> VarintSize(s, limit).None?
    ensures n < |s| && n < limit && s[n] < 128 ==> VarintSize(s, limit) == Some(n + 1)
  {
    if n > 0 {
      VarintEnds(s[1..], n - 1, limit - 1);
    }
  }

  /** The loop that reads a varint. The seven bits of each byte land above all earlier ones, so the
      bitwise or of the code is a sum. */
  method DecodeVarint(dAtA: seq<byte>, start: nat) returns (r: Option<Number>, value: nat)
    requires start <= |dAtA|
    ensures r == ReadVarint(dAtA[start..])
    ensures r.None? ==> value == Partial(dAtA[start..])
  {
    hide VarintSize, Base128, Pow2;
    ghost var s := dAtA[start..];
    var iNdEx, shift := start, 0;
    value := 0;
    assert Base128(s[..0]) == 0 by { NothingRead(); }
    while true
      invariant start <= iNdEx <= |dAtA| && shift == 7 * (iNdEx - start) && shift <= 70
      invariant value == Base128(s[..iNdEx - start]) % TWO_TO_THE_64
      invariant forall k :: 0 <= k < iNdEx - start ==> s[k] >= 128
      decreases |dAtA| - iNdEx
    {
      ghost var n := iNdEx - start;
      assert n == |s| ==> s[..n] == s;
      VarintEnds(s, n, 10);
      if shift >= 64 {
        return None, value;
      }
      if iNdEx >= |dAtA| {
        return None, value;
      }
      var b := dAtA[iNdEx];
      VarintStep(s, n, value);
      iNdEx := iNdEx + 1;
      value := (value + b % 128 * Pow2(shift)) % TWO_TO_THE_64;
      if b < 128 {
        return Some(Number(value, iNdEx - start)), value;
      }
      shift := shift + 7;
    }
  }

  lemma VarintStep(s: seq<byte>, n: nat, value: nat)
    requires n < |s| && value == Base128(s[..n]) % TWO_TO_THE_64
    ensures (value + s[n] % 128 * Pow2(7 * n)) % TWO_TO_THE_64 == Base128(s[..n + 1]) % TWO_TO_THE_64
  {
    hide Base128, Pow2;
    assert s[..n + 1] == s[..n] + [s[n]];
    Base128Append(s[..n], s[n]);
    SumModulo(Base128(s[..n]), s[n] % 128 * Pow2(7 * n));
  }

  lemma SumModulo(a: nat, x: nat)
    ensures (a % TWO_TO_THE_64 + x) % TWO_TO_THE_64 == (a + x) % TWO_TO_THE_64
  {
  }

  lemma NothingRead()
    ensures forall s: seq<byte> :: Base128(s[..0]) == 0
  {
  }

  /** Case 0 of `skipTransfer`: runs over a varint without computing it. */
  method SkipVarint(dAtA: seq<byte>, start: nat) returns (r: Option<nat>)
    requires start <= |dAtA|
    ensures r == var n := VarintSize(dAtA[start..], 10); if n.Some? then Some(start + n.value) else None
  {
    hide VarintSize;
    ghost var s := dAtA[start..];
    var iNdEx, shift := start, 0;
    while true
      invariant start <= iNdEx <= |dAtA| && shift == 7 * (iNdEx - start) && shift <= 70
      invariant forall k :: 0 <= k < iNdEx - start ==> s[k] >= 128
      decreases |dAtA| - iNdEx
    {
      VarintEnds(s, iNdEx - start, 10);
      if shift >= 64 {
        return None;
      }
      if iNdEx >= |dAtA| {
        return None;
      }
      iNdEx := iNdEx + 1;
      if dAtA[iNdEx - 1] < 128 {
        return Some(iNdEx);
      }
      shift := shift + 7;
    }
  }

  method SkipOnePayload(dAtA: seq<byte>, i: nat, wireType: nat) returns (r: Option<nat>)
    requires i <= |dAtA| <= MAX_INT
    ensures r == SkipPayload(dAtA, i, wireType)
  {
    hide ReadVarint, VarintSize;
    var iNdEx: int := i;
    match wireType {
      case 0 =>
        r := SkipVarint(dAtA, i);
        return;
      case 1 =>
        iNdEx := AddInt(i, 8);
      case 2 =>
        var length, _ := DecodeVarint(dAtA, i);
        if length.None? || ToInt(length.value.value) < 0 {
          return None;
        }
        iNdEx := AddInt(i + length.value.size, ToInt(length.value.value));
      case 3 =>
      case 4 =>
      case 5 =>
        iNdEx := AddInt(i, 4);
      case _ =>
        return None;
    }
    if iNdEx < 0 {
      return None;
    }
    return Some(iNdEx);
  }

  /** `skipTransfer`. */
  method SkipField(dAtA: seq<byte>) returns (r: Option<nat>)
    requires |dAtA| <= MAX_INT
    ensures r == Skip(dAtA, 0, 0)
  {
    hide ReadVarint, SkipPayload;
    var iNdEx, depth := 0, 0;
    while iNdEx < |dAtA|
      invariant Skip(dAtA, 0, 0) == Skip(dAtA, iNdEx, depth)
      decreases |dAtA| - iNdEx
    {
      var wire, _ := DecodeVarint(dAtA, iNdEx);
      if wire.None? {
        return None;
      }
      var wireType := wire.value.value % 8;
      var next := SkipOnePayload(dAtA, iNdEx + wire.value.size, wireType);
      if next.None? {
        return None;
      }
      if wireType == 3 {
        depth := depth + 1;
      } else if wireType == 4 {
        if depth == 0 {
          return None;
        }
        depth := depth - 1;
      }
      iNdEx := next.value;
      if depth == 0 {
        return Some(iNdEx);
      }
    }
    return None;
  }

  /** The body of the decoding loops: one field that starts at `preIndex`. Indices are 64-bit
      integers: a length that makes the end index wrap is refused. */
  method NextField(dAtA: seq<byte>, preIndex: nat, k: Kind) returns (r: Option<Parsed>, torn: Option<Field>)
    requires preIndex < |dAtA| <= MAX_INT
    ensures r == ReadField(dAtA[preIndex..], k)
    ensures r.None? ==> torn == TornField(dAtA[preIndex..], k)
  {
    hide ReadVarint, Skip, Partial;
    var wire, _ := DecodeVarint(dAtA, preIndex);
    if wire.None? {
      return None, None;
    }
    var iNdEx := preIndex + wire.value.size;
    var fieldNum, wireType := ToInt32(wire.value.value / 8), wire.value.value % 8;
    if wireType == 4 {
      return None, None;
    }
    if fieldNum <= 0 {
      return None, None;
    }
    if fieldNum == 1 || fieldNum == 2 {
      if wireType != WireType(k) {
        return None, None;
      }
      assert dAtA[preIndex..][wire.value.size..] == dAtA[iNdEx..];
      var v, partial := DecodeVarint(dAtA, iNdEx);
      if v.None? {
        return None, if k == Numeric then Some(Num(fieldNum, partial)) else None;
      }
      iNdEx := iNdEx + v.value.size;
      if k == Numeric {
        return Some(Parsed(Some(Num(fieldNum, v.value.value)), iNdEx - preIndex)), None;
      }
      var length := ToInt(v.value.value);
      if length < 0 {
        return None, None;
      }
      var postIndex := AddInt(iNdEx, length);
      if postIndex < 0 {
        return None, None;
      }
      if postIndex > |dAtA| {
        return None, None;
      }
      assert dAtA[preIndex..][iNdEx - preIndex..postIndex - preIndex] == dAtA[iNdEx..postIndex];
      return Some(Parsed(Some(Bytes(fieldNum, dAtA[iNdEx..postIndex])), postIndex - preIndex)), None;
    }
    var skippy := SkipField(dAtA[preIndex..]);
    if skippy.None? || AddInt(preIndex, skippy.value) < 0 {
      return None, None;
    }
    if AddInt(preIndex, skippy.value) > |dAtA| {
      return None, None;
    }
    return Some(Parsed(None, skippy.value)), None;
  }

  // ---------------------------------------------------------------- the messages

  class DenomTraceMessage {
    var path: seq<byte>
    var baseDenom: seq<byte>

    function Value(): Trace
      reads this
    {
      Trace(path, baseDenom)
    }

    constructor (t: Trace)
      ensures Value() == t
    {
      path, baseDenom := t.path, t.baseDenom;
    }

    method Size() returns (n: nat)
      ensures n == |EncodeTrace(Value())|
    {
      n := 0;
      if |path| > 0 {
        SovIsSize(|path|);
        n := n + 1 + |path| + Sov(|path|);
      }
      if |baseDenom| > 0 {
        SovIsSize(|baseDenom|);
        n := n + 1 + |baseDenom| + Sov(|baseDenom|);
      }
    }

    /** Fills the end of the buffer and leaves the rest of it alone. */
    method MarshalToSizedBuffer(dAtA: array<byte>) returns (n: nat)
      requires |EncodeTrace(Value())| <= dAtA.Length
      modifies dAtA
      ensures n == |EncodeTrace(Value())|
      ensures dAtA[..] == old(dAtA[..dAtA.Length - n]) + EncodeTrace(Value())
    {
      hide BytesField;
      ghost var was := dAtA[..];
      var i := EncodeBytesField(dAtA, dAtA.Length, 2, baseDenom);
      i := EncodeBytesField(dAtA, i, 1, path);
      SplicePrepend(was, i, BytesField(1, path), BytesField(2, baseDenom));
      return dAtA.Length - i;
    }

    method Marshal() returns (dAtA: array<byte>)
      ensures fresh(dAtA) && dAtA[..] == EncodeTrace(Value())
    {
      var size := Size();
      dAtA := new byte[size];
      var n := MarshalToSizedBuffer(dAtA);
    }

    method Unmarshal(dAtA: seq<byte>) returns (ok: bool)
      requires |dAtA| <= MAX_INT
      modifies this
      ensures ok <==> DecodeTrace(dAtA, old(Value())).Some?
      ensures Value() == FillTrace(old(Value()), Assigned(dAtA, Delimited))
      ensures ok ==> Value() == DecodeTrace(dAtA, old(Value())).value
    {
      hide ReadField, TornField, Fields, Assigned;
      if Fields(dAtA, Delimited).Some? {
        AssignedAll(dAtA, Delimited);
      }
      var iNdEx := 0;
      assert dAtA[0..] == dAtA;
      while iNdEx < |dAtA|
        invariant iNdEx <= |dAtA|
        invariant DecodeTrace(dAtA, old(Value())) == DecodeTrace(dAtA[iNdEx..], Value())
        invariant FillTrace(old(Value()), Assigned(dAtA, Delimited)) == FillTrace(Value(), Assigned(dAtA[iNdEx..], Delimited))
        decreases |dAtA| - iNdEx
      {
        DecodeTraceStep(dAtA[iNdEx..], Value());
        AssignedTraceStep(dAtA[iNdEx..], Value());
        var next, torn := NextField(dAtA, iNdEx, Delimited);
        if next.None? {
          return false;
        }
        if next.value.field.Some? && next.value.field.value.Bytes? {
          if next.value.field.value.number == 1 {
            path := next.value.field.value.bytes;
          } else if next.value.field.value.number == 2 {
            baseDenom := next.value.field.value.bytes;
          }
        }
        assert dAtA[iNdEx..][next.value.size..] == dAtA[iNdEx + next.value.size..];
        iNdEx := iNdEx + next.value.size;
      }
      assert dAtA[iNdEx..] == [];
      AssignedTraceEnd(Value());
      return true;
    }
  }

  class HeightMessage {
    var revisionNumber: nat
    var revisionHeight: nat

    function Value(): Height
      reads this
    {
      Height(revisionNumber, revisionHeight)
    }

    constructor (h: Height)
      ensures Value() == h
    {
      revisionNumber, revisionHeight := h.revisionNumber, h.revisionHeight;
    }

    method Size() returns (n: nat)
      ensures n == |EncodeHeight(Value())|
    {
      n := 0;
      if revisionNumber != 0 {
        SovIsSize(revisionNumber);
        n := n + 1 + Sov(revisionNumber);
      }
      if revisionHeight != 0 {
        SovIsSize(revisionHeight);
        n := n + 1 + Sov(revisionHeight);
      }
    }

    method MarshalToSizedBuffer(dAtA: array<byte>) returns (n: nat)
      requires |EncodeHeight(Value())| <= dAtA.Length
      modifies dAtA
      ensures n == |EncodeHeight(Value())|
      ensures dAtA[..] == old(dAtA[..dAtA.Length - n]) + EncodeHeight(Value())
    {
      hide NumField;
      ghost var was := dAtA[..];
      var i := EncodeNumField(dAtA, dAtA.Length, 2, revisionHeight);
      i := EncodeNumField(dAtA, i, 1, revisionNumber);
      SplicePrepend(was, i, NumField(1, revisionNumber), NumField(2, revisionHeight));
      return dAtA.Length - i;
    }

    method Assign(f: Field)
      modifies this
      ensures Value() == WithNumber(old(Value()), f)
    {
      if f.Num? {
        if f.number == 1 {
          revisionNumber := f.value;
        } else if f.number == 2 {
          revisionHeight := f.value;
        }
      }
    }

    method Unmarshal(dAtA: seq<byte>) returns (ok: bool)
      requires |dAtA| <= MAX_INT
      modifies this
      ensures ok <==> DecodeHeight(dAtA, old(Value())).Some?
      ensures Value() == FillHeight(old(Value()), Assigned(dAtA, Numeric))
      ensures ok ==> Value() == DecodeHeight(dAtA, old(Value())).value
    {
      hide ReadField, TornField, Fields, Assigned;
      if Fields(dAtA, Numeric).Some? {
        AssignedAll(dAtA, Numeric);
      }
      var iNdEx := 0;
      assert dAtA[0..] == dAtA;
      while iNdEx < |dAtA|
        invariant iNdEx <= |dAtA|
        invariant DecodeHeight(dAtA, old(Value())) == DecodeHeight(dAtA[iNdEx..], Value())
        invariant FillHeight(old(Value()), Assigned(dAtA, Numeric)) == FillHeight(Value(), Assigned(dAtA[iNdEx..], Numeric))
        decreases |dAtA| - iNdEx
      {
        DecodeHeightStep(dAtA[iNdEx..], Value());
        AssignedHeightStep(dAtA[iNdEx..], Value());
        var next, torn := NextField(dAtA, iNdEx, Numeric);
        if next.None? {
          if torn.Some? {
            Assign(torn.value);
          }
          return false;
        }
        if next.value.field.Some? {
          Assign(next.value.field.value);
        }
        assert dAtA[iNdEx..][next.value.size..] == dAtA[iNdEx + next.value.size..];
        iNdEx := iNdEx + next.value.size;
      }
      assert dAtA[iNdEx..] == [];
      AssignedHeightEnd(Value());
      return true;
    }
  }

  // ---------------------------------------------------------------- the trace store

  predicate IsByteString(s: string) {
    forall i :: 0 <= i < |s| ==> s[i] as int < 256
  }

  function ToBytes(s: string): (b: seq<byte>)
    requires IsByteString(s)
    ensures |b| == |s|
  {
    seq(|s|, i requires 0 <= i < |s| => s[i] as int)
  }

  function FromBytes(b: seq<byte>): (s: string)
    ensures |s| == |b|
  {
    seq(|b|, i requires 0 <= i < |b| => b[i] as char)
  }

  /** A trace that a program can hold: strings of bytes, an encoding that has a length. */
  predicate Storable(t: DenomTrace) {
    IsByteString(t.path) && IsByteString(t.baseDenom) && |EncodeTrace(Trace(ToBytes(t.path), ToBytes(t.baseDenom)))| <= MAX_INT
  }

  function Stored(t: DenomTrace): seq<byte>
    requires Storable(t)
  {
    EncodeTrace(Trace(ToBytes(t.path), ToBytes(t.baseDenom)))
  }

  /** The transfer module's store of encoded traces under the hash of their path. */
  class TraceStore {
    var entries: map<Digest, seq<byte>>

    constructor ()
      ensures entries == map[]
    {
      entries := map[];
    }

    /** What the store means. */
    ghost function Lookup(hash: Digest): Option<DenomTrace>
      reads this
    {
      if hash in entries && |entries[hash]| <= MAX_INT && DecodeTrace(entries[hash], Trace([], [])).Some? then
        var t := DecodeTrace(entries[hash], Trace([], [])).value;
        Some(DenomTrace(FromBytes(t.path), FromBytes(t.baseDenom)))
      else None
    }

    method HasDenomTrace(hash: Digest) returns (found: bool)
      ensures found <==> hash in entries
    {
      return hash in entries;
    }

    /** Stored under its own hash, and found there; every other entry stays. */
    method SetDenomTrace(t: DenomTrace)
      requires Storable(t)
      modifies this
      ensures entries == old(entries)[t.Hash() := Stored(t)]
      ensures Lookup(t.Hash()) == Some(t)
    {
      hide EncodeTrace, DecodeTrace;
      var m := new DenomTraceMessage(Trace(ToBytes(t.path), ToBytes(t.baseDenom)));
      var bz := m.Marshal();
      entries := entries[t.Hash() := bz[..]];
      TraceRoundTrip(m.Value());
      assert FromBytes(ToBytes(t.path)) == t.path && FromBytes(ToBytes(t.baseDenom)) == t.baseDenom;
    }

    /** `GetDenomTrace`; bytes that do not decode make the program panic (`None` inside `Some`). */
    method GetDenomTrace(hash: Digest) returns (r: Option<Option<DenomTrace>>)
      requires hash in entries ==> |entries[hash]| <= MAX_INT
      ensures r.Some? <==> hash in entries
      ensures r.Some? ==> r.value == Lookup(hash)
    {
      hide DecodeTrace;
      if hash !in entries {
        return None;
      }
      var m := new DenomTraceMessage(Trace([], []));
      var ok := m.Unmarshal(entries[hash]);
      if !ok {
        return Some(None);
      }
      return Some(Some(DenomTrace(FromBytes(m.path), FromBytes(m.baseDenom))));
    }

    /** What was set is what a later get returns. */
    method SetThenGet(t: DenomTrace) returns (r: Option<Option<DenomTrace>>)
      requires Storable(t)
      modifies this
      ensures r == Some(Some(t)) && entries == old(entries)[t.Hash() := Stored(t)]
    {
      hide EncodeTrace, DecodeTrace;
      SetDenomTrace(t);
      r := GetDenomTrace(t.Hash());
    }

    /** What a receive that mints does to the trace store: the trace is there afterwards, and nothing
        that was there is lost. */
    method AddDenomTrace(t: DenomTrace)
      requires Storable(t)
      modifies this
      ensures entries == if t.Hash() in old(entries) then old(entries) else old(entries)[t.Hash() := Stored(t)]
      ensures t.Hash() !in old(entries) ==> Lookup(t.Hash()) == Some(t)
    {
      var found := HasDenomTrace(t.Hash());
      if !found {
        SetDenomTrace(t);
      }
    }
  }
}
