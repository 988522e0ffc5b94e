/** The formats that other programs rely on, spelt out: identifiers and client types, keys, decimal
    numbers, heights, trace lists and wire bytes. */
module Formats {
  import opened Basics
  import opened Strings
  import opened Identifiers
  import opened Decimals
  import opened Heights
  import opened HostKeys
  import opened ClientIds
  import opened Denoms
  import opened HopStack
  import opened GenesisFaults
  import opened Wire
  import opened Messages

  // ---------------------------------------------------------------- identifiers

  /** Digits, capital and small letters, and `# + - . < > [ ] _`, by their code points. */
  predicate IsIdCode(n: int) {
    || 0x30 <= n <= 0x39 || 0x41 <= n <= 0x5A || 0x61 <= n <= 0x7A
    || n == 0x23 || n == 0x2B || n == 0x2D || n == 0x2E || n == 0x3C || n == 0x3E || n == 0x5B || n == 0x5D || n == 0x5F
  }

  predicate OnlyIdChars(id: string) {
    forall i :: 0 <= i < |id| ==> IsIdCode(id[i] as int)
  }

  lemma IdCharExactly(c: char)
    ensures IsIdChar(c) <==> IsIdCode(c as int)
  {
  }

  lemma IdentifierExactly(id: string, min: nat, max: nat)
    requires min > 0
    ensures ValidIdentifier(id, min, max) <==> min <= |id| <= max && OnlyIdChars(id)
  {
    hide IsIdChar;
    forall c
      ensures IsIdChar(c) <==> IsIdCode(c as int)
    {
      IdCharExactly(c);
    }
    if min <= |id| <= max && OnlyIdChars(id) {
      NotBlank(id);
    }
  }

  lemma NotBlank(id: string)
    requires id != "" && OnlyIdChars(id)
    ensures !Blank(id) && '/' !in id
  {
    IdCharExactly(id[0]);
    assert IsIdChar(id[0]);
    assert SpaceWidth(id) == 0;
    if '/' in id {
      IdCharExactly('/');
    }
  }

  /** The four kinds of identifiers: which characters, how many of them. */
  lemma IdentifiersExactly(id: string)
    ensures ValidPortId(id) <==> 2 <= |id| <= 128 && OnlyIdChars(id)
    ensures ValidChannelId(id) <==> 8 <= |id| <= 64 && OnlyIdChars(id)
    ensures ValidClientId(id) <==> 9 <= |id| <= 64 && OnlyIdChars(id)
    ensures ValidConnectionId(id) <==> 10 <= |id| <= 64 && OnlyIdChars(id)
  {
    hide ValidIdentifier, OnlyIdChars;
    IdentifierExactly(id, 2, 128);
    IdentifierExactly(id, 8, 64);
    IdentifierExactly(id, 9, 64);
    IdentifierExactly(id, 10, 64);
  }

  /** A client type is valid exactly if it has 7 to 43 identifier characters and no dash at its end. */
  lemma ClientTypesExactly(t: string)
    ensures ValidateClientType(t) <==> 7 <= |t| <= 43 && OnlyIdChars(t) && t[|t| - 1] != '-'
  {
    hide ParseClientIdentifier, ValidClientId, FormatUint, Blank, OnlyIdChars, FormatClientIdentifier, TypeFormat;
    ParseInvertsFormatIdentifier(t, 0);
    FormattedIdExactly(t, 0);
    FormattedIdExactly(t, MAX_UINT64);
    ZeroLength();
    MaxLength();
    if t != "" && OnlyIdChars(t) {
      NotBlank(t);
      TypeFormatExactly(t);
    }
  }

  lemma FormattedIdExactly(t: string, n: nat)
    ensures ValidClientId(FormatClientIdentifier(t, n)) <==> 9 <= |t| + 1 + |FormatUint(n)| <= 64 && OnlyIdChars(t)
  {
    var id := FormatClientIdentifier(t, n);
    IdentifiersExactly(id);
    FormatDigits(n);
    hide FormatUint, ValidClientId;
    if OnlyIdChars(id) {
      forall i | 0 <= i < |t|
        ensures IsIdCode(t[i] as int)
      {
        assert t[i] == id[i];
      }
    }
    if OnlyIdChars(t) {
      forall i | 0 <= i < |id|
        ensures IsIdCode(id[i] as int)
      {
        if i < |t| {
          assert id[i] == t[i];
        } else {
          assert i > |t| ==> id[i] == FormatUint(n)[i - |t| - 1];
          IdCharExactly(id[i]);
        }
      }
    }
  }

  lemma TypeFormatExactly(t: string)
    requires t != "" && OnlyIdChars(t)
    ensures TypeFormat(t) <==> t[|t| - 1] != '-'
  {
    IdCharExactly('\n');
  }

  /** The two regular expressions, read as what they match: `^.*[^-]-[0-9]{1,20}$` and
      `^.*[^-]-[1-9][0-9]*$`, where a dot matches everything but a line break. */
  ghost predicate MatchesClientId(id: string) {
    exists a: string, c: char, digits: string ::
      Spelt(id, a, c, digits) && '\n' !in a && c != '-' && 1 <= |digits| <= 20 && AllDigits(digits)
  }

  ghost predicate MatchesRevision(id: string) {
    exists a: string, c: char, digits: string ::
      Spelt(id, a, c, digits) && '\n' !in a && c != '-' && 1 <= |digits| && digits[0] != '0' && AllDigits(digits)
  }

  predicate Spelt(id: string, a: string, c: char, digits: string) {
    id == a + [c] + "-" + digits
  }

  lemma SpeltParts(id: string, a: string, c: char, digits: string)
    requires Spelt(id, a, c, digits) && AllDigits(digits)
    ensures '-' in id && Init(id, '-') == a + [c] && LastPart(id, '-') == digits
    ensures TypeFormat(a + [c]) <==> '\n' !in a && c != '-'
  {
    hide Init, LastPart;
    assert '-' !in digits;
    SplitAtLast(a + [c], digits, '-');
    assert id[|a| + 1] == '-';
    assert (a + [c])[..|a + [c]| - 1] == a;
  }

  lemma FormatIsSpelt(id: string)
    requires '-' in id && TypeFormat(Init(id, '-'))
    ensures var t := Init(id, '-'); Spelt(id, t[..|t| - 1], t[|t| - 1], LastPart(id, '-'))
  {
    hide Init, LastPart;
    SplitsAtLast(id);
    var t := Init(id, '-');
    assert t == t[..|t| - 1] + [t[|t| - 1]];
  }

  lemma RegularExpressions(id: string)
    ensures IsClientIDFormat(id) <==> MatchesClientId(id)
    ensures IsRevisionFormat(id) <==> MatchesRevision(id)
  {
    hide Init, LastPart, Spelt;
    if '-' in id && TypeFormat(Init(id, '-')) {
      FormatIsSpelt(id);
    }
    if a, c, digits :| Spelt(id, a, c, digits) && '\n' !in a && c != '-' && 1 <= |digits| <= 20 && AllDigits(digits) {
      SpeltParts(id, a, c, digits);
    }
    if a, c, digits :| Spelt(id, a, c, digits) && '\n' !in a && c != '-' && 1 <= |digits| && digits[0] != '0' && AllDigits(digits) {
      SpeltParts(id, a, c, digits);
    }
  }

  /** A chain identifier without a revision counts as revision zero. */
  lemma NoRevisionIsZero(id: string)
    requires !MatchesRevision(id)
    ensures ParseChainID(id) == Some(0)
  {
    hide IsRevisionFormat, MatchesRevision;
    RegularExpressions(id);
  }

  // ---------------------------------------------------------------- white space

  /** The UTF-8 form of a code point of at most sixteen bits. */
  function Utf8(cp: nat): string
    requires cp < 0x10000
  {
    if cp < 0x80 then [cp as char]
    else if cp < 0x800 then [(0xC0 + cp / 64) as char, (0x80 + cp % 64) as char]
    else [(0xE0 + cp / 4096) as char, (0x80 + cp / 64 % 64) as char, (0x80 + cp % 64) as char]
  }

  /** The code points with the property White_Space. */
  predicate IsWhite(cp: nat) {
    || 0x09 <= cp <= 0x0D || cp == 0x20 || cp == 0x85 || cp == 0xA0 || cp == 0x1680 || 0x2000 <= cp <= 0x200A
    || cp == 0x2028 || cp == 0x2029 || cp == 0x202F || cp == 0x205F || cp == 0x3000
  }

  function CodeAt(s: string, width: nat): nat
    requires width <= |s|
  {
    if width == 1 then s[0] as int
    else if width == 2 && s[0] as int >= 0xC0 && s[1] as int >= 0x80 then (s[0] as int - 0xC0) * 64 + (s[1] as int - 0x80)
    else if width == 3 && s[0] as int >= 0xE0 && s[1] as int >= 0x80 && s[2] as int >= 0x80
    then (s[0] as int - 0xE0) * 4096 + (s[1] as int - 0x80) * 64 + (s[2] as int - 0x80)
    else 0
  }

  /** A white space character at the front is one whose UTF-8 form is there. */
  lemma WhiteIsSkipped(cp: nat, rest: string)
    requires cp < 0x10000 && IsWhite(cp)
    ensures SpaceWidth(Utf8(cp) + rest) == |Utf8(cp)|
  {
  }

  lemma SkippedIsWhite(s: string)
    requires SpaceWidth(s) > 0
    ensures var cp := CodeAt(s, SpaceWidth(s)); cp < 0x10000 && IsWhite(cp) && HasPrefix(s, Utf8(cp)) && |Utf8(cp)| == SpaceWidth(s)
  {
    var n := SpaceWidth(s);
    assert s[..n] == if n == 1 then [s[0]] else if n == 2 then [s[0], s[1]] else [s[0], s[1], s[2]];
  }

  // ---------------------------------------------------------------- numbers and heights

  lemma SmallNumbers()
    ensures FormatUint(0) == "0" && FormatUint(7) == "7" && FormatUint(120) == "120"
    ensures HeightText(Height(1, 20)) == "1-20" && FormatClientIdentifier("07-tendermint", 0) == "07-tendermint-0"
  {
    assert FormatUint(12) == "12";
    assert FormatUint(120) == FormatUint(12) + "0";
    assert FormatUint(20) == "20";
    assert "07-tendermint" + "-" + "0" == "07-tendermint-0";
    assert "1" + "-" + "20" == "1-20";
  }

  /** A text parses as a height exactly if it is two 64-bit numbers around one dash. */
  lemma HeightParsesExactly(s: string, h: Height)
    ensures ParseHeight(s) == Some(h) <==>
            exists a, b :: s == a + "-" + b && ParseUint(a) == Some(h.revisionNumber) && ParseUint(b) == Some(h.revisionHeight)
  {
    if ParseHeight(s) == Some(h) {
      var parts := Split(s, '-');
      JoinInvertsSplit(s, '-');
      assert parts == [parts[0], parts[1]];
      assert s == parts[0] + "-" + parts[1] && ParseUint(parts[0]) == Some(h.revisionNumber) && ParseUint(parts[1]) == Some(h.revisionHeight);
    }
    if a, b :| s == a + "-" + b && ParseUint(a) == Some(h.revisionNumber) && ParseUint(b) == Some(h.revisionHeight) {
      assert '-' !in a && '-' !in b;
      SplitFirst(a, b, '-');
      SplitWithoutSeparator(b, '-');
      assert [a] + [b] == [a, b];
    }
  }

  // ---------------------------------------------------------------- keys

  /** The path-space of the host, client part. */
  lemma ClientKeys(id: string, h: Height)
    ensures Path(ClientState(id)) == "clients/" + id + "/clientState"
    ensures Path(ConsensusState(id, h)) == "clients/" + id + "/consensusStates/" + (FormatUint(h.revisionNumber) + "-" + FormatUint(h.revisionHeight))
    ensures Path(ClientConnections(id)) == "clients/" + id + "/connections"
  {
    var text := FormatUint(h.revisionNumber) + "-" + FormatUint(h.revisionHeight);
    assert HeightText(h) == text;
    hide FormatUint, HeightText;
    assert "clients" + "/" == "clients/";
    Under(id, "clientState");
    Under(id, "connections");
    Under(id, "consensusStates" + "/" + text);
    assert "/" + "clientState" == "/clientState" && "/" + "connections" == "/connections";
    assert "/" + ("consensusStates" + "/" + text) == "/consensusStates/" + text;
    Together("clients/" + id, "/consensusStates/", text);
  }

  lemma Under(id: string, rest: string)
    ensures FullClientPath(id, rest) == "clients/" + id + ("/" + rest)
  {
    assert "clients" + "/" == "clients/";
  }

  lemma Together(a: string, b: string, c: string)
    ensures a + (b + c) == a + b + c
  {
  }

  lemma PlainKeys(id: string)
    ensures Path(Connection(id)) == "connections/" + id
    ensures Path(Port(id)) == "ports/" + id
  {
    assert "connections" + "/" == "connections/" && "ports" + "/" == "ports/";
  }

  lemma ChannelRoute(p: string, c: string)
    ensures ChannelPath(p, c) == "ports/" + p + "/channels/" + c
  {
  }

  /** Channel part. */
  lemma ChannelKeys(p: string, c: string)
    ensures var route := "/ports/" + p + "/channels/" + c;
            && Path(ChannelEnd(p, c)) == "channelEnds" + route
            && Path(ChannelCapability(p, c)) == "capabilities" + route
            && Path(NextSequenceSend(p, c)) == "nextSequenceSend" + route
            && Path(NextSequenceRecv(p, c)) == "nextSequenceRecv" + route
            && Path(NextSequenceAck(p, c)) == "nextSequenceAck" + route
  {
    ChannelRoute(p, c);
    hide ChannelPath;
    assert "/" + ("ports/" + p + "/channels/" + c) == "/ports/" + p + "/channels/" + c;
  }

  /** Packet part. */
  lemma PacketKeys(p: string, c: string, n: nat)
    ensures var rest := "/ports/" + p + "/channels/" + c + "/sequences/" + FormatUint(n);
            && Path(PacketCommitment(p, c, n)) == "commitments" + rest
            && Path(PacketAcknowledgement(p, c, n)) == "acks" + rest
            && Path(PacketReceipt(p, c, n)) == "receipts" + rest
  {
    ChannelRoute(p, c);
    hide ChannelPath, FormatUint;
    var route := ChannelPath(p, c);
    var rest := "/ports/" + p + "/channels/" + c + "/sequences/" + FormatUint(n);
    assert "/" + route + "/sequences/" + FormatUint(n) == rest;
    Glued("commitments", route, FormatUint(n));
    Glued("acks", route, FormatUint(n));
    Glued("receipts", route, FormatUint(n));
  }

  lemma Glued(family: string, route: string, n: string)
    ensures family + "/" + route + "/" + "sequences" + "/" + n == family + ("/" + route + "/sequences/" + n)
    ensures family + "/" + route + "/" + ("sequences" + "/" + n) == family + ("/" + route + "/sequences/" + n)
  {
  }

  // ---------------------------------------------------------------- traces

  /** A genesis trace is valid exactly if it is a native coin, or a non-blank base under a path of valid
      hops. */
  lemma TracesExactly(t: DenomTrace)
    ensures t.Validate() <==>
            || (t.path == "" && t.baseDenom != "")
            || (!Blank(t.baseDenom) && exists hops: seq<Hop> :: hops != [] && (forall i :: 0 <= i < |hops| ==> hops[i].Valid())
                                                      && t.path == Join(IdentifiersOf(hops), '/'))
  {
    hide Blank, Hop.Valid, ValidPortId, ValidChannelId;
    var ids := Split(t.path, '/');
    JoinInvertsSplit(t.path, '/');
    if ValidTraceIdentifiers(ids) {
      HopsOfIdentifiers(ids);
      var hops := HopsOf(ids);
      assert hops != [] && t.path == Join(IdentifiersOf(hops), '/');
    }
    if hops: seq<Hop> :| hops != [] && (forall i :: 0 <= i < |hops| ==> hops[i].Valid()) && t.path == Join(IdentifiersOf(hops), '/') {
      IdentifiersFree(hops);
      SplitInvertsJoin(IdentifiersOf(hops), '/');
      HopsAreIdentifiers(hops);
      HopsOfIdentifiers(ids);
    }
  }

  lemma {:induction false} IdentifiersFree(hops: seq<Hop>)
    requires forall i :: 0 <= i < |hops| ==> hops[i].Valid()
    ensures AllFree(IdentifiersOf(hops), '/')
  {
    hide Hop.Valid;
    if hops != [] {
      HopFree(hops[0]);
      IdentifiersFree(hops[1..]);
    }
  }

  // ---------------------------------------------------------------- wire bytes

  /** One and two bytes: low seven bits first, the high bit marks that more follow. */
  lemma ShortVarints(v: nat)
    ensures v < 128 ==> Varint(v) == [v]
    ensures 128 <= v < 16384 ==> Varint(v) == [v % 128 + 128, v / 128]
  {
  }

  /** Field 1 is the path, field 2 the base denomination, both length-delimited; empty ones are left
      out. */
  lemma TraceBytes(p: seq<byte>, b: seq<byte>)
    requires |p| < 128 && |b| < 128
    ensures var first, second: seq<byte> := if p == [] then [] else [0x0A, |p|] + p, if b == [] then [] else [0x12, |b|] + b;
            EncodeTrace(Trace(p, b)) == first + second
  {
  }

  /** Field 1 is the revision number, field 2 the revision height, both numeric; zeros are left out. */
  lemma HeightBytes(r: nat, h: nat)
    requires r < 128 && h < 128
    ensures var first, second: seq<byte> := if r == 0 then [] else [0x08, r], if h == 0 then [] else [0x10, h];
            EncodeHeight(Height(r, h)) == first + second
  {
  }

  /** 64 bits, signed and unsigned. */
  lemma WordSizes()
    ensures TWO_TO_THE_64 == Pow2(64) && MAX_UINT64 == Pow2(64) - 1 && MAX_INT == Pow2(63) - 1
  {
    hide Pow2;
    PowerSteps();
    Pow2Septet(0);
    Pow2Septet(7);
    Pow2Septet(14);
    Pow2Septet(21);
    Pow2Septet(28);
    Pow2Septet(35);
    Pow2Septet(42);
    Pow2Septet(49);
    Pow2Septet(56);
  }

  lemma PowerSteps()
    ensures Pow2(0) == 1 && Pow2(64) == 2 * Pow2(63)
  {
  }
}
