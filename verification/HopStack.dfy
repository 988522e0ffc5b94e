/** Denomination strings read as a stack of hops over a base denomination, and the proof that the
    string operations of the transfer module are the stack operations they are meant to be. */
module HopStack {
  import opened Strings
  import opened Identifiers
  import opened Denoms

  /** The full path of a token that crossed `hops`, the latest first. */
  function PathOf(hops: seq<Hop>, base: string): string {
    if hops == [] then base else hops[0].Prefix() + PathOf(hops[1..], base)
  }

  ghost predicate WellFormed(hops: seq<Hop>, base: string) {
    && (forall i :: 0 <= i < |hops| ==> hops[i].Valid())
    && '/' !in base
    && !Blank(base)
  }

  function IdentifiersOf(hops: seq<Hop>): (ids: seq<string>)
    ensures |ids| == 2 * |hops|
  {
    if hops == [] then [] else [hops[0].port, hops[0].channel] + IdentifiersOf(hops[1..])
  }

  /** What the receiving chain makes of a packet denomination (relay.go): it removes the sender's
      prefix if that is on top, and otherwise puts its own on top. */
  function ReceivedPath(source: Hop, dest: Hop, denom: string): string {
    if ReceiverChainIsSource(source, denom) then denom[|source.Prefix()|..] else dest.Prefix() + denom
  }

  lemma PrefixUnique(h: Hop, k: Hop, x: string, y: string)
    requires h.Valid() && k.Valid()
    requires h.Prefix() + x == k.Prefix() + y
    ensures h == k && x == y
  {
    assert h.Prefix() + x == h.port + "/" + (h.channel + "/" + x);
    assert k.Prefix() + y == k.port + "/" + (k.channel + "/" + y);
    FirstPartUnique(h.port, k.port, h.channel + "/" + x, k.channel + "/" + y, '/');
    FirstPartUnique(h.channel, k.channel, x, y, '/');
  }

  lemma PrefixSplits(h: Hop, s: string)
    requires HasPrefix(s, h.Prefix())
    ensures s == h.Prefix() + s[|h.Prefix()|..]
  {
  }

  /** A prefixed path keeps its leading identifier, so parsing and printing carry it through. */
  lemma PrefixedKeepsSlash(h: Hop, p: string)
    requires h.Valid()
    ensures !LosesSlash(h.Prefix() + p)
    ensures CoinOf(h.Prefix() + p) == Ibc(Sha256(h.Prefix() + p), Canonical)
  {
    var s := h.Prefix() + p;
    assert s[0] == h.port[0];
    assert s[|h.port|] == '/';
    CoinOfCases(s);
  }

  lemma HopFree(h: Hop)
    requires h.Valid()
    ensures '/' !in h.port && '/' !in h.channel
  {
  }

  lemma {:induction false} SplitPathOf(hops: seq<Hop>, base: string)
    requires WellFormed(hops, base)
    ensures Split(PathOf(hops, base), '/') == IdentifiersOf(hops) + [base]
  {
    hide Hop.Valid, Blank, Split;
    if hops == [] {
      SplitWithoutSeparator(base, '/');
    } else {
      var h, rest := hops[0], PathOf(hops[1..], base);
      HopFree(h);
      SplitPrefix(h, rest);
      SplitPathOf(hops[1..], base);
      hide PathOf;
      var ids := IdentifiersOf(hops[1..]);
      assert [h.port, h.channel] + (ids + [base]) == [h.port, h.channel] + ids + [base];
    }
  }

  lemma SplitPrefix(h: Hop, rest: string)
    requires '/' !in h.port && '/' !in h.channel
    ensures Split(h.Prefix() + rest, '/') == [h.port, h.channel] + Split(rest, '/')
  {
    hide Split;
    assert h.Prefix() + rest == h.port + "/" + (h.channel + "/" + rest);
    SplitFirst(h.port, h.channel + "/" + rest, '/');
    SplitFirst(h.channel, rest, '/');
    assert [h.port] + ([h.channel] + Split(rest, '/')) == [h.port, h.channel] + Split(rest, '/');
  }

  /** The string prefix test asks exactly whether the given channel end is on top of the stack. */
  lemma PrefixTestIsTopOfStack(hops: seq<Hop>, base: string, h: Hop)
    requires WellFormed(hops, base) && h.Valid()
    ensures ReceiverChainIsSource(h, PathOf(hops, base)) <==> hops != [] && hops[0] == h
  {
    var s := PathOf(hops, base);
    if ReceiverChainIsSource(h, s) {
      PrefixSplits(h, s);
      assert s[|h.port|] == '/';
      if hops != [] {
        PrefixUnique(h, hops[0], s[|h.Prefix()|..], PathOf(hops[1..], base));
      }
    }
  }

  /** Receiving pops the sender's hop when it is on top and otherwise pushes the receiver's. */
  lemma ReceivePopsOrPushes(hops: seq<Hop>, base: string, source: Hop, dest: Hop)
    requires WellFormed(hops, base) && source.Valid() && dest.Valid()
    ensures ReceivedPath(source, dest, PathOf(hops, base)) ==
            if hops != [] && hops[0] == source then PathOf(hops[1..], base) else PathOf([dest] + hops, base)
  {
    PrefixTestIsTopOfStack(hops, base, source);
    assert ([dest] + hops)[1..] == hops;
  }

  lemma {:induction false} IdentifiersInjective(a: seq<Hop>, b: seq<Hop>)
    requires IdentifiersOf(a) == IdentifiersOf(b)
    ensures a == b
  {
    if a != [] && b != [] {
      var x, y := IdentifiersOf(a), IdentifiersOf(b);
      assert x[0] == a[0].port && x[1] == a[0].channel && y[0] == b[0].port && y[1] == b[0].channel;
      assert x[2..] == IdentifiersOf(a[1..]) && y[2..] == IdentifiersOf(b[1..]);
      IdentifiersInjective(a[1..], b[1..]);
      assert a == [a[0]] + a[1..] && b == [b[0]] + b[1..];
    }
  }

  /** Coins identify their history: equal bank denominations have equal hops and base, so two
      channels never mint the same voucher. */
  lemma CoinIdentifiesHistory(a: seq<Hop>, x: string, b: seq<Hop>, y: string)
    requires WellFormed(a, x) && WellFormed(b, y)
    requires CoinOf(PathOf(a, x)) == CoinOf(PathOf(b, y))
    ensures a == b && x == y
  {
    PathKeepsSlash(a, x);
    PathKeepsSlash(b, y);
    CoinOfInjective(PathOf(a, x), PathOf(b, y));
    SplitPathOf(a, x);
    SplitPathOf(b, y);
    var s, t := IdentifiersOf(a) + [x], IdentifiersOf(b) + [y];
    assert s == t;
    assert s[..|s| - 1] == IdentifiersOf(a) && t[..|t| - 1] == IdentifiersOf(b);
    assert s[|s| - 1] == x && t[|t| - 1] == y;
    IdentifiersInjective(a, b);
  }

  lemma PathKeepsSlash(hops: seq<Hop>, base: string)
    requires WellFormed(hops, base)
    ensures !LosesSlash(PathOf(hops, base))
  {
    if hops != [] {
      PrefixedKeepsSlash(hops[0], PathOf(hops[1..], base));
    }
  }

  /** Pairs the identifiers of a trace up into hops. */
  function HopsOf(ids: seq<string>): (hops: seq<Hop>)
    requires |ids| % 2 == 0
    ensures |hops| == |ids| / 2
  {
    if ids == [] then [] else [Hop(ids[0], ids[1])] + HopsOf(ids[2..])
  }

  lemma {:induction false} HopsOfIdentifiers(ids: seq<string>)
    requires |ids| % 2 == 0
    ensures IdentifiersOf(HopsOf(ids)) == ids
    ensures ids != [] ==> (ValidTraceIdentifiers(ids) <==> forall i :: 0 <= i < |ids| / 2 ==> HopsOf(ids)[i].Valid())
  {
    if ids != [] {
      HopsOfIdentifiers(ids[2..]);
      var hops, rest := HopsOf(ids), HopsOf(ids[2..]);
      assert ids == [ids[0], ids[1]] + ids[2..];
      assert hops[1..] == rest;
      assert forall i :: 2 <= i < |ids| ==> ids[i] == ids[2..][i - 2];
      assert forall i :: 1 <= i < |hops| ==> hops[i] == rest[i - 1];
      if ValidTraceIdentifiers(ids) {
        assert |ids| > 2 ==> ValidTraceIdentifiers(ids[2..]);
      }
    }
  }

  /** `ValidatePrefixedDenom` accepts exactly the strings that spell a stack of valid hops over a
      non-blank, slash-free base. */
  lemma ValidatedDenomsAreStacks(denom: string)
    ensures ValidPrefixedDenom(denom) <==> exists hops, base :: WellFormed(hops, base) && denom == PathOf(hops, base)
  {
    if ValidPrefixedDenom(denom) {
      hide ValidPrefixedDenom, WellFormed, PathOf;
      ValidatedIsStack(denom);
    }
    if hops, base :| WellFormed(hops, base) && denom == PathOf(hops, base) {
      hide ValidPrefixedDenom, WellFormed, PathOf;
      StackIsValidated(hops, base);
    }
  }

  lemma ValidatedIsStack(denom: string)
    requires ValidPrefixedDenom(denom)
    ensures exists hops, base :: WellFormed(hops, base) && denom == PathOf(hops, base)
  {
    hide ValidPortId, ValidChannelId, Blank, Split;
    var parts := Split(denom, '/');
    JoinInvertsSplit(denom, '/');
    SplitPartsAreFree(denom, '/');
    SplitCount(denom, '/');
    var init, base := parts[..|parts| - 1], parts[|parts| - 1];
    assert parts == init + [base];
    if init == [] {
      assert WellFormed([], denom) && denom == PathOf([], denom);
    } else {
      HopsOfIdentifiers(init);
      var hops := HopsOf(init);
      SplitPathOf(hops, base);
      JoinInvertsSplit(PathOf(hops, base), '/');
      assert WellFormed(hops, base) && denom == PathOf(hops, base);
    }
  }

  lemma StackIsValidated(hops: seq<Hop>, base: string)
    requires WellFormed(hops, base)
    ensures ValidPrefixedDenom(PathOf(hops, base))
  {
    hide Hop.Valid, ValidTraceIdentifiers, Blank, Split;
    var denom, ids := PathOf(hops, base), IdentifiersOf(hops);
    var parts := Split(denom, '/');
    SplitPathOf(hops, base);
    assert parts[..|parts| - 1] == ids && parts[|parts| - 1] == base;
    if hops != [] {
      HopsAreIdentifiers(hops);
      HopsOfIdentifiers(ids);
    }
  }

  /** Every denomination that validation accepts survives parsing and printing, and two of them
      have the same bank denomination only if they are equal. */
  lemma ValidatedDenomsRoundTrip(s: string, t: string)
    requires ValidPrefixedDenom(s) && ValidPrefixedDenom(t)
    ensures ParseDenomTrace(s).GetFullDenomPath() == s
    ensures CoinOf(s) == CoinOf(t) <==> s == t
  {
    hide ValidPrefixedDenom, CoinOf, ParseDenomTrace, LosesSlash;
    ValidatedKeepsSlash(s);
    ValidatedKeepsSlash(t);
    PrintInvertsParse(s);
    CoinOfInjective(s, t);
  }

  lemma ValidatedKeepsSlash(s: string)
    requires ValidPrefixedDenom(s)
    ensures !LosesSlash(s)
  {
    hide ValidPrefixedDenom, LosesSlash;
    ValidatedDenomsAreStacks(s);
    var hops, base :| WellFormed(hops, base) && s == PathOf(hops, base);
    PathKeepsSlash(hops, base);
  }

  lemma {:induction false} HopsAreIdentifiers(hops: seq<Hop>)
    ensures HopsOf(IdentifiersOf(hops)) == hops
  {
    if hops != [] {
      HopsAreIdentifiers(hops[1..]);
      var ids := IdentifiersOf(hops);
      assert ids[2..] == IdentifiersOf(hops[1..]);
    }
  }
}
