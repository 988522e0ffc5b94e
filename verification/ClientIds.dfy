/** Client identifiers `{client-type}-{N}` (modules/core/02-client/types/keys.go and client.go), and
    revision numbers in chain identifiers (modules/core/02-client/types/height.go). */
module ClientIds {
  import opened Basics
  import opened Strings
  import opened Identifiers
  import opened Decimals

  function FormatClientIdentifier(clientType: string, sequence: nat): string {
    clientType + "-" + FormatUint(sequence)
  }

  function LastPart(s: string, sep: char): string {
    var parts := Split(s, sep);
    parts[|parts| - 1]
  }

  /** Everything before the last separator. */
  function Init(s: string, sep: char): string {
    var parts := Split(s, sep);
    Join(parts[..|parts| - 1], sep)
  }

  /** What the regular expression of `IsClientIDFormat` asks of the part before the last dash: not
      empty, not ending in a dash, no line break except as its last character. */
  predicate TypeFormat(t: string) {
    t != "" && t[|t| - 1] != '-' && '\n' !in t[..|t| - 1]
  }

  predicate IsClientIDFormat(id: string) {
    var last := LastPart(id, '-');
    '-' in id && TypeFormat(Init(id, '-')) && AllDigits(last) && 1 <= |last| <= 20
  }

  function ParseClientIdentifier(id: string): Option<(string, nat)> {
    if !IsClientIDFormat(id) then None
    else
      var clientType := Init(id, '-');
      var sequence := ParseUint(LastPart(id, '-'));
      if Blank(clientType) || sequence.None? then None else Some((clientType, sequence.value))
  }

  predicate ValidateClientType(t: string) {
    && !Blank(t)
    && ParseClientIdentifier(FormatClientIdentifier(t, 0)).Some?
    && ValidClientId(FormatClientIdentifier(t, 0))
    && ValidClientId(FormatClientIdentifier(t, MAX_UINT64))
  }

  lemma SplitAtLast(a: string, b: string, sep: char)
    requires sep !in b
    ensures Split(a + [sep] + b, sep) == Split(a, sep) + [b]
    ensures Init(a + [sep] + b, sep) == a && LastPart(a + [sep] + b, sep) == b
  {
    var front := Split(a, sep);
    JoinInvertsSplit(a, sep);
    SplitPartsAreFree(a, sep);
    JoinAppend(front, [b], sep);
    SplitInvertsJoin(front + [b], sep);
    assert (front + [b])[..|front|] == front;
  }

  lemma FormatSplits(t: string, n: nat)
    ensures Init(FormatClientIdentifier(t, n), '-') == t && LastPart(FormatClientIdentifier(t, n), '-') == FormatUint(n)
    ensures '-' in FormatClientIdentifier(t, n)
  {
    DigitsAvoid(n, '-');
    SplitAtLast(t, FormatUint(n), '-');
    assert FormatClientIdentifier(t, n)[|t|] == '-';
  }

  /** Distinct pairs of type and number have distinct identifiers, for any type. */
  lemma FormatIdentifierInjective(t: string, n: nat, u: string, m: nat)
    requires FormatClientIdentifier(t, n) == FormatClientIdentifier(u, m)
    ensures t == u && n == m
  {
    FormatSplits(t, n);
    FormatSplits(u, m);
    FormatInjective(n, m);
  }

  /** Parsing inverts formatting exactly for the types with the right format and the numbers that
      fit 64 bits; it fails on everything else that formatting produces. */
  lemma ParseInvertsFormatIdentifier(t: string, n: nat)
    ensures ParseClientIdentifier(FormatClientIdentifier(t, n))
            == if TypeFormat(t) && !Blank(t) && n <= MAX_UINT64 then Some((t, n)) else None
  {
    FormatSplits(t, n);
    FormatDigits(n);
    ParseInvertsFormat(n);
    if n <= MAX_UINT64 {
      UintLength(n);
    }
  }

  /** A parsed identifier that formatting can produce carries the number it was formatted with. */
  lemma ParsedNumber(id: string, t: string, n: nat)
    requires ParseClientIdentifier(id).Some? && id == FormatClientIdentifier(t, n)
    ensures ParseClientIdentifier(id).value == (t, n)
  {
    ParseInvertsFormatIdentifier(t, n);
  }

  lemma MaxLength()
    ensures |FormatUint(MAX_UINT64)| == 20
  {
    UintLength(MAX_UINT64);
    var a := MAX_UINT64 / 100_000;
    var b := a / 100_000;
    var c := b / 100_000;
    assert 10_000 <= c;
    FiveDigits(MAX_UINT64);
    FiveDigits(a);
    FiveDigits(b);
    LongAsFive(c);
  }

  lemma FiveDigits(n: nat)
    requires n >= 100_000
    ensures |FormatUint(n)| == 5 + |FormatUint(n / 100_000)|
  {
    var a := n / 10;
    var b := a / 10;
    var c := b / 10;
    var d := c / 10;
    assert |FormatUint(n)| == 1 + |FormatUint(a)| && |FormatUint(a)| == 1 + |FormatUint(b)|;
    assert |FormatUint(b)| == 1 + |FormatUint(c)| && |FormatUint(c)| == 1 + |FormatUint(d)|;
    assert d / 10 == n / 100_000;
  }

  lemma LongAsFive(n: nat)
    requires n >= 10_000
    ensures |FormatUint(n)| >= 5
  {
    var a := n / 10 / 10;
    assert |FormatUint(n)| == 2 + |FormatUint(a)|;
    assert |FormatUint(a)| >= 3;
  }

  /** Checking the smallest and the largest number is enough: every identifier of a validated type
      is valid and parses. */
  lemma ValidatedTypesGiveValidIds(t: string, n: nat)
    requires ValidateClientType(t) && n <= MAX_UINT64
    ensures ValidClientId(FormatClientIdentifier(t, n))
    ensures ParseClientIdentifier(FormatClientIdentifier(t, n)) == Some((t, n))
  {
    hide ParseClientIdentifier, FormatUint, TypeFormat, Blank, IsIdChar;
    ParseInvertsFormatIdentifier(t, 0);
    ParseInvertsFormatIdentifier(t, n);
    UintLength(n);
    MaxLength();
    IdentifierChars(t, n);
    ZeroLength();
  }

  lemma ZeroLength()
    ensures |FormatUint(0)| == 1
  {
  }

  lemma IdentifierChars(t: string, n: nat)
    requires forall i :: 0 <= i < |FormatClientIdentifier(t, 0)| ==> IsIdChar(FormatClientIdentifier(t, 0)[i])
    ensures var id := FormatClientIdentifier(t, n);
            (forall i :: 0 <= i < |id| ==> IsIdChar(id[i])) && !Blank(id) && '/' !in id
  {
    FormatDigits(n);
    hide FormatUint;
    var id, zero := FormatClientIdentifier(t, n), FormatClientIdentifier(t, 0);
    forall i | 0 <= i < |id|
      ensures IsIdChar(id[i])
    {
      if i < |t| {
        assert id[i] == zero[i];
      } else if i > |t| {
        assert id[i] == FormatUint(n)[i - |t| - 1];
      }
    }
    assert IsIdChar(id[0]);
    assert SpaceWidth(id) == 0;
    assert !IsIdChar('/');
  }

  // ---------------------------------------------------------------- revisions of chain identifiers

  /** `IsRevisionFormat`: as above, with a number that does not start with zero. */
  predicate IsRevisionFormat(id: string) {
    var last := LastPart(id, '-');
    '-' in id && TypeFormat(Init(id, '-')) && AllDigits(last) && |last| >= 1 && last[0] != '0'
  }

  /** `None` stands for the panic on a number beyond 64 bits. */
  function ParseChainID(id: string): Option<nat> {
    if !IsRevisionFormat(id) then Some(0) else ParseUint(LastPart(id, '-'))
  }

  /** `strconv.Itoa(int(revision))`: the conversion to a signed integer may turn negative. */
  function ItoaOfInt(revision: nat): string
    requires revision <= MAX_UINT64
  {
    if revision < 0x8000_0000_0000_0000 then FormatUint(revision) else "-" + FormatUint(0x1_0000_0000_0000_0000 - revision)
  }

  function SetRevisionNumber(id: string, revision: nat): Option<string>
    requires revision <= MAX_UINT64
  {
    if !IsRevisionFormat(id) then None
    else
      var parts := Split(id, '-');
      Some(Join(parts[|parts| - 1 := ItoaOfInt(revision)], '-'))
  }

  lemma ReplaceLast(id: string, x: string)
    requires '-' in id
    ensures var parts := Split(id, '-'); Join(parts[|parts| - 1 := x], '-') == Init(id, '-') + "-" + x
  {
    var parts := Split(id, '-');
    SplitCount(id, '-');
    var front := parts[..|parts| - 1];
    assert parts[|parts| - 1 := x] == front + [x];
    JoinAppend(front, [x], '-');
  }

  /** Setting a revision and reading it back gives the revision if and only if it is a signed
      64-bit number; a larger one is printed with a minus sign and read as zero. */
  lemma RevisionRoundTrip(id: string, revision: nat)
    requires revision <= MAX_UINT64 && IsRevisionFormat(id)
    ensures SetRevisionNumber(id, revision).Some?
    ensures ParseChainID(SetRevisionNumber(id, revision).value) == Some(revision) <==> revision < 0x8000_0000_0000_0000
    ensures revision >= 0x8000_0000_0000_0000 ==> ParseChainID(SetRevisionNumber(id, revision).value) == Some(0)
  {
    ReplaceLast(id, ItoaOfInt(revision));
    var t := Init(id, '-');
    if revision < 0x8000_0000_0000_0000 {
      FormatSplits(t, revision);
      FormatDigits(revision);
      ParseInvertsFormat(revision);
    } else {
      var m := 0x1_0000_0000_0000_0000 - revision;
      assert t + "-" + ("-" + FormatUint(m)) == FormatClientIdentifier(t + "-", m);
      FormatSplits(t + "-", m);
      assert !TypeFormat(t + "-");
    }
  }
}
