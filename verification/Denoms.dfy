/** Denomination traces (modules/apps/transfer/types/trace.go and coin.go): the slash-joined strings
    that record the channels a token has crossed, and the stack of hops they stand for. */
module Denoms {
  import opened Strings
  import opened Identifiers

  const DENOM_PREFIX := "ibc"

  /** SHA-256, taken to be free of collisions: a digest determines what was hashed. */
  datatype Digest = Sha256(preimage: string)

  /** How the hexadecimal digits of a digest are written. `Canonical` is the upper-case form the
      code prints; hexadecimal decoding accepts any other mix of cases as well. */
  datatype Spelling = Canonical | Alternate(cases: nat)

  /** A coin denomination. `Ibc` is a string `ibc/{hex}` whose hexadecimal part decodes to a
      digest, `Plain` is every other string. */
  datatype Denom = Plain(text: string) | Ibc(digest: Digest, spelling: Spelling)

  datatype DenomTrace = DenomTrace(path: string, baseDenom: string)
  {
    function GetFullDenomPath(): string {
      if path == "" then baseDenom else path + "/" + baseDenom
    }

    function Hash(): Digest {
      Sha256(GetFullDenomPath())
    }

    function IBCDenom(): Denom {
      if path != "" then Ibc(Hash(), Canonical) else Plain(baseDenom)
    }

    predicate Validate() {
      if path == "" && baseDenom != "" then true
      else if Blank(baseDenom) then false
      else ValidTraceIdentifiers(Split(path, '/'))
    }
  }

  function ParseDenomTrace(raw: string): DenomTrace {
    var parts := Split(raw, '/');
    if parts[0] == raw then DenomTrace("", raw)
    else DenomTrace(Join(parts[..|parts| - 1], '/'), parts[|parts| - 1])
  }

  /** The denomination under which a chain's bank holds the token with a given full path. */
  function CoinOf(path: string): Denom {
    ParseDenomTrace(path).IBCDenom()
  }

  predicate ValidTraceIdentifiers(ids: seq<string>) {
    && |ids| > 0
    && |ids| % 2 == 0
    && forall i :: 0 <= i < |ids| ==> if i % 2 == 0 then ValidPortId(ids[i]) else ValidChannelId(ids[i])
  }

  predicate ValidPrefixedDenom(denom: string) {
    var parts := Split(denom, '/');
    if parts[0] == denom && !Blank(denom) then true
    else if Blank(parts[|parts| - 1]) then false
    else ValidTraceIdentifiers(parts[..|parts| - 1])
  }

  /** `ValidateIBCDenom`, without the character rules of the SDK's own denomination check. */
  predicate ValidIBCDenom(denom: Denom) {
    match denom
    case Plain(text) => !Blank(text) && '/' !in text && text != DENOM_PREFIX
    case Ibc(_, _) => true
  }

  datatype Hop = Hop(port: string, channel: string)
  {
    function Prefix(): string {
      port + "/" + channel + "/"
    }

    predicate Valid() {
      ValidPortId(port) && ValidChannelId(channel)
    }
  }

  predicate ReceiverChainIsSource(source: Hop, denom: string) {
    HasPrefix(denom, source.Prefix())
  }

  predicate SenderChainIsSource(source: Hop, denom: string) {
    !ReceiverChainIsSource(source, denom)
  }

  /** Loop of `validateTraceIdentifiers`. */
  method CheckTraceIdentifiers(ids: seq<string>) returns (ok: bool)
    ensures ok == ValidTraceIdentifiers(ids)
  {
    if |ids| == 0 || |ids| % 2 != 0 {
      return false;
    }
    var i := 0;
    while i < |ids|
      invariant 0 <= i <= |ids| && i % 2 == 0
      invariant forall k :: 0 <= k < i ==> if k % 2 == 0 then ValidPortId(ids[k]) else ValidChannelId(ids[k])
    {
      if !ValidPortId(ids[i]) {
        return false;
      }
      if !ValidChannelId(ids[i + 1]) {
        return false;
      }
      i := i + 2;
    }
    return true;
  }

  /** `DenomTrace.Validate`. */
  method CheckTrace(t: DenomTrace) returns (ok: bool)
    ensures ok == t.Validate()
  {
    hide Blank, Split, ValidTraceIdentifiers;
    if t.path == "" && t.baseDenom != "" {
      return true;
    }
    if Blank(t.baseDenom) {
      return false;
    }
    ok := CheckTraceIdentifiers(Split(t.path, '/'));
  }

  /** `Traces.Validate`: the loop over a genesis list with its map of hashes already seen. */
  method ValidateTraces(traces: seq<DenomTrace>) returns (ok: bool)
    ensures ok <==> && (forall i :: 0 <= i < |traces| ==> traces[i].Validate())
                    && (forall i, j :: 0 <= i < j < |traces| ==> traces[i].GetFullDenomPath() != traces[j].GetFullDenomPath())
  {
    hide DenomTrace.Validate, DenomTrace.GetFullDenomPath;
    var seen: map<Digest, bool> := map[];
    for n := 0 to |traces|
      invariant forall i :: 0 <= i < n ==> traces[i].Validate() && traces[i].Hash() in seen
      invariant forall d :: d in seen ==> exists i :: 0 <= i < n && traces[i].Hash() == d
      invariant forall i, j :: 0 <= i < j < n ==> traces[i].GetFullDenomPath() != traces[j].GetFullDenomPath()
    {
      var hash := traces[n].Hash();
      if hash in seen {
        return false;
      }
      var valid := CheckTrace(traces[n]);
      if !valid {
        return false;
      }
      seen := seen[hash := true];
    }
    return true;
  }

  /** The strings that `ParseDenomTrace` and `GetFullDenomPath` do not carry through: one leading
      slash and no other. */
  predicate LosesSlash(s: string) {
    s != "" && s[0] == '/' && '/' !in s[1..]
  }

  /** Printing a parsed trace gives back the string, except for exactly the `LosesSlash` strings. */
  lemma PrintInvertsParse(s: string)
    ensures ParseDenomTrace(s).GetFullDenomPath() == s <==> !LosesSlash(s)
  {
    var parts := Split(s, '/');
    SplitCount(s, '/');
    JoinInvertsSplit(s, '/');
    SplitPartsAreFree(s, '/');
    if |parts| > 1 {
      var init, last := parts[..|parts| - 1], parts[|parts| - 1];
      assert parts == init + [last];
      JoinAppend(init, [last], '/');
      assert s == Join(init, '/') + "/" + last;
      assert parts[0] != s;
      if Join(init, '/') == "" {
        assert s == "/" + last;
        assert s[1..] == last;
      }
    } else {
      SplitWithoutSeparator(s, '/');
    }
  }

  /** What becomes of those strings: the slash disappears and the rest passes for a native coin. */
  lemma LostSlash(s: string)
    requires LosesSlash(s)
    ensures ParseDenomTrace(s) == DenomTrace("", s[1..]) && CoinOf(s) == Plain(s[1..])
  {
    SplitFirst("", s[1..], '/');
    SplitWithoutSeparator(s[1..], '/');
    assert s == "" + "/" + s[1..];
    assert [""] + [s[1..]] == ["", s[1..]];
  }

  /** Parsing a printed trace gives back the trace when the base has no slash. */
  lemma ParseInvertsPrint(t: DenomTrace)
    requires '/' !in t.baseDenom
    ensures ParseDenomTrace(t.GetFullDenomPath()) == t
  {
    var s := t.GetFullDenomPath();
    if t.path == "" {
      SplitWithoutSeparator(s, '/');
    } else {
      var init := Split(t.path, '/');
      JoinInvertsSplit(t.path, '/');
      SplitPartsAreFree(t.path, '/');
      JoinAppend(init, [t.baseDenom], '/');
      var parts := init + [t.baseDenom];
      assert Join(parts, '/') == s;
      SplitInvertsJoin(parts, '/');
      assert parts[..|parts| - 1] == init;
    }
  }

  /** Different paths are different coins, `LosesSlash` paths aside. */
  lemma CoinOfInjective(p: string, q: string)
    requires !LosesSlash(p) && !LosesSlash(q)
    ensures CoinOf(p) == CoinOf(q) ==> p == q
  {
    PrintInvertsParse(p);
    PrintInvertsParse(q);
  }

  /** What `CoinOf` computes: slash-free paths are native coins, the others vouchers named by hash. */
  lemma CoinOfCases(p: string)
    requires !LosesSlash(p)
    ensures CoinOf(p) == if '/' in p then Ibc(Sha256(p), Canonical) else Plain(p)
  {
    PrintInvertsParse(p);
    SplitCount(p, '/');
    JoinInvertsSplit(p, '/');
    SplitPartsAreFree(p, '/');
  }
}
