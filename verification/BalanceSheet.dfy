/** How each kind of handler moves value, and why every move leaves escrow and obligations equal. */
module BalanceSheet {
  import opened Basics
  import opened Strings
  import opened Denoms
  import opened HopStack
  import opened Totals
  import opened Banking
  import opened Chains
  import opened Network

  // ---------------------------------------------------------------- sums of obligations

  lemma OwingAdd(m: map<nat, Commitment>, acks: map<nat, Ack>, p: string, k: nat, c: Commitment)
    requires k !in m && k !in acks
    ensures Total(Owing(m[k := c], acks, p)) == Total(Owing(m, acks, p)) + if Carries(c, p) then Amount(c) else 0
  {
    var before, after := Owing(m, acks, p), Owing(m[k := c], acks, p);
    if Carries(c, p) {
      TotalRemove(after, k);
      assert after - {k} == before;
    } else {
      assert after == before;
    }
  }

  lemma OwingRemove(m: map<nat, Commitment>, acks: map<nat, Ack>, p: string, k: nat)
    requires k in m
    ensures Total(Owing(m, acks, p)) == Total(Owing(m - {k}, acks, p))
              + if Carries(m[k], p) && !(k in acks && acks[k].ResultAck?) then Amount(m[k]) else 0
  {
    var before, after := Owing(m, acks, p), Owing(m - {k}, acks, p);
    if k in before {
      TotalRemove(before, k);
      assert before - {k} == after;
    } else {
      assert after == before;
    }
  }

  lemma OwingAck(m: map<nat, Commitment>, acks: map<nat, Ack>, p: string, k: nat, ack: Ack)
    requires k in m && k !in acks
    ensures Total(Owing(m, acks, p)) == Total(Owing(m, acks[k := ack], p))
              + if Carries(m[k], p) && ack.ResultAck? then Amount(m[k]) else 0
  {
    var before, after := Owing(m, acks, p), Owing(m, acks[k := ack], p);
    if Carries(m[k], p) && ack.ResultAck? {
      TotalRemove(before, k);
      assert before - {k} == after;
    } else {
      assert after == before;
    }
  }

  // ---------------------------------------------------------------- one chain's bank

  function When(b: bool, n: nat): nat {
    if b then n else 0
  }

  /** `after` is `before` with `a` coins of path `q` taken from `who` and put out of circulation:
      into the escrow of `source`, or burnt if they came through `source`. */
  ghost predicate Locks(before: Bank, after: Bank, source: Hop, q: string, a: nat, who: Address) {
    var d, locked := CoinOf(q), SenderChainIsSource(source, q);
    && (forall x, y :: after.Balance(x, y) + When(x == who && y == d, a)
                       == before.Balance(x, y) + When(locked && x == Escrow(source) && y == d, a))
    && (forall y :: after.Supply(y) + When(!locked && y == d, a) == before.Supply(y))
  }

  /** `after` is `before` with `a` coins paid to `to` by the end `dest` for a packet of path `q`
      from `source`: out of escrow if they return, newly minted otherwise. */
  ghost predicate Pays(before: Bank, after: Bank, source: Hop, dest: Hop, q: string, a: nat, to: Address) {
    var d, back := CoinOf(ReceivedPath(source, dest, q)), ReceiverChainIsSource(source, q);
    && (forall x, y :: after.Balance(x, y) + When(back && x == Escrow(dest) && y == d, a)
                       == before.Balance(x, y) + When(x == to && y == d, a))
    && (forall y :: after.Supply(y) == before.Supply(y) + When(!back && y == d, a))
  }

  /** The coin that `SendTransfer` debits is the coin of the path it writes into the packet. */
  lemma SentCoinIsCoinOfPath(c: Chain, d: Denom, sender: Address, amount: nat)
    requires ChainOk(c) && ValidIBCDenom(d) && FullDenomPath(c, d).Ok?
    requires 0 < amount <= c.bank.Balance(sender, d)
    ensures var q := FullDenomPath(c, d).value;
            && !LosesSlash(q) && CoinOf(q) == d
            && ('/' in q ==> Sha256(q) in c.traces)
  {
    var q := FullDenomPath(c, d).value;
    if d.Ibc? {
      var t := c.traces[d.digest];
      assert q[|t.path|] == '/';
      assert forall k :: c.bank.Balance(sender, Ibc(d.digest, Alternate(k))) == 0;
      assert d.spelling == Canonical;
    }
    CoinOfCases(q);
  }

  lemma SendLocks(b: Bank, source: Hop, q: string, amount: nat, sender: Address)
    requires SenderChainIsSource(source, q) && b.SendCoins(sender, Escrow(source), CoinOf(q), amount).Some?
    ensures Locks(b, b.SendCoins(sender, Escrow(source), CoinOf(q), amount).value, source, q, amount, sender)
  {
    hide CoinOf, HasPrefix, Bank.SendCoins, Bank.Balance;
  }

  lemma BurnLocks(b: Bank, c: Bank, source: Hop, q: string, amount: nat, sender: Address)
    requires ReceiverChainIsSource(source, q) && b.SendCoins(sender, MODULE_ACCOUNT, CoinOf(q), amount) == Some(c)
    requires c.BurnCoins(MODULE_ACCOUNT, CoinOf(q), amount).Some?
    ensures Locks(b, c.BurnCoins(MODULE_ACCOUNT, CoinOf(q), amount).value, source, q, amount, sender)
  {
    hide CoinOf, HasPrefix, Bank.SendCoins, Bank.BurnCoins, Bank.Balance;
    var d, after := CoinOf(q), c.BurnCoins(MODULE_ACCOUNT, CoinOf(q), amount).value;
    forall x, y
      ensures after.Balance(x, y) + When(x == sender && y == d, amount) == b.Balance(x, y)
    {
      assert c.Balance(x, y) + (if x == sender && y == d then amount else 0) == b.Balance(x, y) + (if x == MODULE_ACCOUNT && y == d then amount else 0);
      assert after.Balance(x, y) == c.Balance(x, y) - if x == MODULE_ACCOUNT && y == d then amount else 0;
    }
  }

  lemma LockOrBurnLocks(b: Bank, source: Hop, q: string, d: Denom, amount: nat, sender: Address)
    requires d == CoinOf(q) && LockOrBurn(b, source, q, d, amount, sender).Ok?
    ensures Locks(b, LockOrBurn(b, source, q, d, amount, sender).value, source, q, amount, sender)
    ensures amount <= b.Balance(sender, d)
    ensures b.Conserved() ==> LockOrBurn(b, source, q, d, amount, sender).value.Conserved()
  {
    hide CoinOf, HasPrefix, Locks, Bank.SendCoins, Bank.MintCoins, Bank.BurnCoins, Bank.Balance, Bank.Conserved;
    if SenderChainIsSource(source, q) {
      SendLocks(b, source, q, amount, sender);
      if b.Conserved() {
        SendConserves(b, sender, Escrow(source), d, amount);
      }
    } else {
      var c := b.SendCoins(sender, MODULE_ACCOUNT, d, amount).value;
      BurnLocks(b, c, source, q, amount, sender);
      if b.Conserved() {
        SendConserves(b, sender, MODULE_ACCOUNT, d, amount);
        BurnConserves(c, MODULE_ACCOUNT, d, amount);
      }
    }
  }

  lemma MintToPays(c: Chain, to: Address, d: Denom, a: nat)
    requires MintTo(c, to, d, a).Ok?
    ensures var b := MintTo(c, to, d, a).value;
            && (forall x, y :: b.Balance(x, y) == c.bank.Balance(x, y) + When(x == to && y == d, a))
            && (forall y :: b.Supply(y) == c.bank.Supply(y) + When(y == d, a))
            && (c.bank.Conserved() ==> b.Conserved())
  {
    hide Bank.SendCoins, Bank.MintCoins, Bank.BurnCoins, Bank.Balance;
    var minted := c.bank.MintCoins(MODULE_ACCOUNT, d, a);
    if c.bank.Conserved() {
      MintConserves(c.bank, MODULE_ACCOUNT, d, a);
      SendConserves(minted, MODULE_ACCOUNT, to, d, a);
    }
  }

  /** A refund is the reverse of the debit made when the packet was sent. */
  lemma RefundUnlocks(c: Chain, p: Packet, data: PacketData)
    requires RefundPacketToken(c, p, data).Ok?
    ensures var r := RefundPacketToken(c, p, data).value;
            && c.DecodeAddress(data.sender).Some? && data.amount >= 0
            && r == c.(bank := r.bank)
            && Locks(r.bank, c.bank, p.source, data.denom, data.amount, c.DecodeAddress(data.sender).value)
            && (c.bank.Conserved() ==> r.bank.Conserved())
  {
    hide CoinOf, LosesSlash, HasPrefix, MintTo, Bank.SendCoins, Bank.MintCoins, Bank.BurnCoins, Bank.Balance;
    var d, sender := CoinOf(data.denom), c.DecodeAddress(data.sender).value;
    if SenderChainIsSource(p.source, data.denom) {
      if c.bank.Conserved() {
        SendConserves(c.bank, Escrow(p.source), sender, d, data.amount);
      }
    } else {
      MintToPays(c, sender, d, data.amount);
    }
  }

  /** A validated path whose top hop is removed still parses back to itself. */
  lemma ValidatedSuffixKeepsSlash(h: Hop, q: string)
    requires h.Valid() && ValidPrefixedDenom(q) && HasPrefix(q, h.Prefix())
    ensures !LosesSlash(q[|h.Prefix()|..])
  {
    ValidatedDenomsAreStacks(q);
    var hops, base :| WellFormed(hops, base) && q == PathOf(hops, base);
    PrefixTestIsTopOfStack(hops, base, h);
    assert q[|h.Prefix()|..] == PathOf(hops[1..], base);
    PathKeepsSlash(hops[1..], base);
  }

  ghost predicate TracesGrow(was: map<Digest, DenomTrace>, now: map<Digest, DenomTrace>) {
    && (forall h :: h in was ==> h in now && now[h] == was[h])
    && (forall h :: h in now && h !in was ==> now[h].Hash() == h && GoodTrace(now[h]))
  }

  /** Coins that come back are paid out of escrow under their unprefixed path. */
  lemma RecvUnescrows(c: Chain, p: Packet, data: PacketData)
    requires p.source.Valid() && ReceiverChainIsSource(p.source, data.denom)
    requires OnRecvPacket(c, p, data).Ok?
    ensures var r := OnRecvPacket(c, p, data).value;
            && !LosesSlash(ReceivedPath(p.source, p.dest, data.denom))
            && r == c.(bank := r.bank)
            && data.ValidBasic() && c.DecodeAddress(data.receiver).Some?
            && Pays(c.bank, r.bank, p.source, p.dest, data.denom, data.amount, c.DecodeAddress(data.receiver).value)
            && (c.bank.Conserved() ==> r.bank.Conserved())
  {
    hide Split, LosesSlash, ValidPrefixedDenom, Hop.Valid, Hop.Prefix, Bank.SendCoins, Bank.MintCoins, Bank.BurnCoins, Bank.Balance;
    var u := data.denom[|p.source.Prefix()|..];
    assert CoinOf(u) == (if ParseDenomTrace(u).path != "" then ParseDenomTrace(u).IBCDenom() else Plain(u)) by {
      ValidatedSuffixKeepsSlash(p.source, data.denom);
      PrintInvertsParse(u);
    }
    ValidatedSuffixKeepsSlash(p.source, data.denom);
    hide CoinOf, ParseDenomTrace;
    if c.bank.Conserved() {
      SendConserves(c.bank, Escrow(p.dest), c.DecodeAddress(data.receiver).value, CoinOf(u), data.amount);
    }
  }

  /** Coins from elsewhere are minted under a path that starts with this end, and traced. */
  lemma RecvMints(c: Chain, p: Packet, data: PacketData)
    requires p.dest.Valid() && SenderChainIsSource(p.source, data.denom)
    requires OnRecvPacket(c, p, data).Ok?
    ensures var r := OnRecvPacket(c, p, data).value;
            && !LosesSlash(ReceivedPath(p.source, p.dest, data.denom))
            && r == c.(bank := r.bank, traces := r.traces)
            && data.ValidBasic() && c.DecodeAddress(data.receiver).Some?
            && Pays(c.bank, r.bank, p.source, p.dest, data.denom, data.amount, c.DecodeAddress(data.receiver).value)
            && (c.bank.Conserved() ==> r.bank.Conserved())
            && TracesGrow(c.traces, r.traces) && Sha256(p.dest.Prefix() + data.denom) in r.traces
  {
    hide HasPrefix, Split, ValidPrefixedDenom, MintTo, Hop.Valid, Bank.SendCoins, Bank.MintCoins, Bank.BurnCoins, Bank.Balance;
    var s := p.dest.Prefix() + data.denom;
    PrefixedKeepsSlash(p.dest, data.denom);
    PrintInvertsParse(s);
    hide CoinOf, ParseDenomTrace, LosesSlash, Hop.Prefix;
    MintToPays(c, c.DecodeAddress(data.receiver).value, CoinOf(s), data.amount);
  }

  // ---------------------------------------------------------------- the whole network

  /** `m` differs from `n` at most in chain `c`; ends keep their wiring. */
  ghost predicate OnlyChain(n: Net, m: Net, c: string) {
    && n.Wired() && m.Wired() && m.peers == n.peers && m.chains.Keys == n.chains.Keys
    && forall x :: x in n.chains && x != c ==> m.chains[x] == n.chains[x]
  }

  /** Only the end `e` changed its commitments, and no end its acknowledgements. */
  ghost predicate OnlyCommitments(n: Net, m: Net, e: End)
    requires n.Wired() && m.Wired() && m.peers == n.peers
  {
    forall f :: f in n.peers ==> m.At(f).acks == n.At(f).acks && (f != e ==> m.At(f).commitments == n.At(f).commitments)
  }

  /** Only the end `d` changed its acknowledgements, and no end its commitments. */
  ghost predicate OnlyAcks(n: Net, m: Net, d: End)
    requires n.Wired() && m.Wired() && m.peers == n.peers
  {
    forall f :: f in n.peers ==> m.At(f).commitments == n.At(f).commitments && (f != d ==> m.At(f).acks == n.At(f).acks)
  }

  /** Locking `a` coins of path `q` behind end `e` moves them from circulation to in flight. */
  ghost predicate Commits(n: Net, m: Net, e: End, q: string, a: nat, who: Address) {
    && OnlyChain(n, m, e.chain) && e in n.peers && m.gifts == n.gifts
    && !LosesSlash(q) && who.User?
    && Locks(n.chains[e.chain].bank, m.chains[e.chain].bank, e.id, q, a, who)
    && OnlyCommitments(n, m, e)
    && (forall p :: InFlight(m, e, p) == InFlight(n, e, p) + When(p == q, a))
  }

  lemma WiredAt(n: Net, f: End)
    requires n.Wired() && f in n.peers
    ensures var g := n.peers[f];
            && g in n.peers && n.peers[g] == f && g != f
            && f.chain in n.chains && f.id in n.chains[f.chain].channels
            && g.chain in n.chains && g.id in n.chains[g.chain].channels
  {
  }

  lemma CommitEscrowed(n: Net, m: Net, e: End, q: string, a: nat, who: Address, f: End, p: string)
    requires OnlyChain(n, m, e.chain) && e in n.peers && f in n.peers && who.User? && !LosesSlash(q) && !LosesSlash(p)
    requires Locks(n.chains[e.chain].bank, m.chains[e.chain].bank, e.id, q, a, who)
    ensures Escrowed(m, f, p) == Escrowed(n, f, p) + When(f == e && p == q && SenderChainIsSource(e.id, q), a)
  {
    hide CoinOf, LosesSlash, HasPrefix, Net.Wired, Net.WiredEnd;
    WiredAt(n, f);
    WiredAt(n, e);
    CoinOfInjective(p, q);
  }

  lemma SamePrefix(n: Net, e: End, g: End, p: string, q: string)
    requires n.Named() && e in n.peers && g in n.peers && g.id.Prefix() + p == q && HasPrefix(q, e.id.Prefix())
    ensures e.id == g.id
  {
    PrefixSplits(e.id, q);
    PrefixUnique(g.id, e.id, p, q[|e.id.Prefix()|..]);
  }

  lemma CommitCirculating(n: Net, m: Net, e: End, q: string, a: nat, who: Address, f: End, p: string)
    requires OnlyChain(n, m, e.chain) && e in n.peers && f in n.peers && !LosesSlash(q) && n.Named()
    requires Locks(n.chains[e.chain].bank, m.chains[e.chain].bank, e.id, q, a, who)
    ensures Circulating(m, f, p) + When(n.peers[f] == e && n.peers[f].id.Prefix() + p == q, a) == Circulating(n, f, p)
  {
    hide CoinOf, LosesSlash, Hop.Valid, Hop.Prefix, Net.Wired, Net.WiredEnd;
    WiredAt(n, f);
    WiredAt(n, e);
    var g := n.peers[f];
    var s := g.id.Prefix() + p;
    PrefixedKeepsSlash(g.id, p);
    CoinOfInjective(s, q);
    if s == q && ReceiverChainIsSource(e.id, q) {
      SamePrefix(n, e, g, p, q);
    }
    assert s == q && g == e ==> HasPrefix(q, e.id.Prefix());
  }

  lemma InFlightElsewhere(n: Net, m: Net, x: End, p: string)
    requires n.Wired() && m.Wired() && m.peers == n.peers && x in n.peers
    requires m.At(x).commitments == n.At(x).commitments && m.At(n.peers[x]).acks == n.At(n.peers[x]).acks
    ensures InFlight(m, x, p) == InFlight(n, x, p)
  {
  }

  /** Both directions: a send keeps the balance sheet, and so does its reversal. */
  lemma CommitKeepsSheet(n: Net, m: Net, e: End, q: string, a: nat, who: Address, f: End, p: string)
    requires Commits(n, m, e, q, a, who) && f in n.peers && !LosesSlash(p)
    requires n.Named()
    ensures Backed(n, f, p) <==> Backed(m, f, p)
  {
    hide CoinOf, LosesSlash, Locks, Escrowed, Circulating, InFlight, Hop.Valid, Hop.Prefix, Net.Wired;
    WiredAt(n, f);
    WiredAt(m, f);
    var g := n.peers[f];
    var s := g.id.Prefix() + p;
    CommitEscrowed(n, m, e, q, a, who, f, p);
    CommitCirculating(n, m, e, q, a, who, f, p);
    if f != e {
      InFlightElsewhere(n, m, f, p);
    }
    if g != e {
      InFlightElsewhere(n, m, g, s);
    }
    assert InFlight(m, f, p) == InFlight(n, f, p) + When(f == e && p == q, a);
    assert InFlight(m, g, s) == InFlight(n, g, s) + When(g == e && s == q, a);
  }

  /** Sending vouchers back, or having them refunded, makes none of a path that had none. */
  lemma CommitKeepsUnminted(n: Net, m: Net, e: End, q: string, a: nat, who: Address, f: End, p: string)
    requires Commits(n, m, e, q, a, who) && f in n.peers && n.Named()
    ensures Unminted(n, f, p) <==> Unminted(m, f, p)
  {
    hide CoinOf, LosesSlash, Locks, Circulating, InFlight, Hop.Valid, Hop.Prefix, Net.Wired;
    WiredAt(n, f);
    WiredAt(m, f);
    var g := n.peers[f];
    var s := g.id.Prefix() + p;
    CommitCirculating(n, m, e, q, a, who, f, p);
    if g != e {
      InFlightElsewhere(n, m, g, s);
    }
    assert InFlight(m, g, s) == InFlight(n, g, s) + When(g == e && s == q, a);
  }

  /** A delivery of `a` coins of path `q`, sent from `e`, to `to` on the other chain. */
  ghost predicate Delivers(n: Net, m: Net, e: End, q: string, a: nat, to: Address) {
    && e in n.peers && n.peers[e] in n.peers && OnlyChain(n, m, n.peers[e].chain)
    && var d := n.peers[e];
    && !LosesSlash(q) && !LosesSlash(ReceivedPath(e.id, d.id, q))
    && m.gifts == n.AddGift(d.chain, to, CoinOf(ReceivedPath(e.id, d.id, q)), a).gifts
    && Pays(n.chains[d.chain].bank, m.chains[d.chain].bank, e.id, d.id, q, a, to)
    && OnlyAcks(n, m, d)
    && (forall p :: InFlight(n, e, p) == InFlight(m, e, p) + When(p == q, a))
  }

  lemma DeliveryEscrowed(n: Net, m: Net, e: End, q: string, a: nat, to: Address, f: End, p: string)
    requires e in n.peers && n.peers[e] in n.peers && f in n.peers && OnlyChain(n, m, n.peers[e].chain) && !LosesSlash(p)
    requires !LosesSlash(ReceivedPath(e.id, n.peers[e].id, q))
    requires m.gifts == n.AddGift(n.peers[e].chain, to, CoinOf(ReceivedPath(e.id, n.peers[e].id, q)), a).gifts
    requires Pays(n.chains[n.peers[e].chain].bank, m.chains[n.peers[e].chain].bank, e.id, n.peers[e].id, q, a, to)
    ensures var d, z := n.peers[e], ReceivedPath(e.id, n.peers[e].id, q);
            Escrowed(m, f, p) + n.Gift(f.chain, Escrow(f.id), CoinOf(p)) + When(f == d && ReceiverChainIsSource(e.id, q) && p == z, a)
            == Escrowed(n, f, p) + m.Gift(f.chain, Escrow(f.id), CoinOf(p))
  {
    hide CoinOf, LosesSlash, HasPrefix, ReceivedPath, Net.Wired, Net.WiredEnd;
    WiredAt(n, f);
    WiredAt(n, e);
    CoinOfInjective(p, ReceivedPath(e.id, n.peers[e].id, q));
  }

  lemma DeliveryCirculating(n: Net, m: Net, e: End, q: string, a: nat, to: Address, f: End, p: string)
    requires e in n.peers && n.peers[e] in n.peers && f in n.peers && OnlyChain(n, m, n.peers[e].chain) && n.Named()
    requires !LosesSlash(ReceivedPath(e.id, n.peers[e].id, q))
    requires Pays(n.chains[n.peers[e].chain].bank, m.chains[n.peers[e].chain].bank, e.id, n.peers[e].id, q, a, to)
    ensures Circulating(m, f, p) == Circulating(n, f, p) + When(f == e && SenderChainIsSource(e.id, q) && p == q, a)
  {
    hide CoinOf, LosesSlash, Hop.Valid, Hop.Prefix, Net.Wired, Net.WiredEnd;
    WiredAt(n, f);
    WiredAt(n, e);
    var d, g := n.peers[e], n.peers[f];
    var s := g.id.Prefix() + p;
    PrefixedKeepsSlash(g.id, p);
    CoinOfInjective(s, ReceivedPath(e.id, d.id, q));
    if SenderChainIsSource(e.id, q) && s == d.id.Prefix() + q {
      PrefixUnique(g.id, d.id, p, q);
    }
  }

  lemma DeliveryKeepsSheet(n: Net, m: Net, e: End, q: string, a: nat, to: Address, f: End, p: string)
    requires Delivers(n, m, e, q, a, to) && f in n.peers && !LosesSlash(p)
    requires n.Named()
    ensures Backed(n, f, p) ==> Backed(m, f, p)
  {
    hide CoinOf, LosesSlash, Pays, Escrowed, Circulating, InFlight, Net.Gift, Net.AddGift, Hop.Valid, Hop.Prefix, Net.Wired;
    WiredAt(n, f);
    WiredAt(n, e);
    WiredAt(m, f);
    var d, g := n.peers[e], n.peers[f];
    var s := g.id.Prefix() + p;
    DeliveryEscrowed(n, m, e, q, a, to, f, p);
    DeliveryCirculating(n, m, e, q, a, to, f, p);
    if f != e {
      InFlightElsewhere(n, m, f, p);
    }
    if g != e {
      InFlightElsewhere(n, m, g, s);
    }
    assert InFlight(n, f, p) == InFlight(m, f, p) + When(f == e && p == q, a);
    assert InFlight(n, g, s) == InFlight(m, g, s) + When(g == e && s == q, a);
    if ReceiverChainIsSource(e.id, q) {
      PrefixSplits(e.id, q);
    }
  }

  /** A delivery mints no voucher of an unmintable path. */
  lemma DeliveryKeepsUnminted(n: Net, m: Net, e: End, q: string, a: nat, to: Address, f: End, p: string)
    requires Delivers(n, m, e, q, a, to) && f in n.peers && n.Named() && q != DENOM_PREFIX && Unmintable(f.id, p)
    ensures Unminted(n, f, p) ==> Unminted(m, f, p)
  {
    hide CoinOf, LosesSlash, Pays, Circulating, InFlight, Net.Gift, Net.AddGift, Hop.Valid, Hop.Prefix, Net.Wired;
    WiredAt(n, f);
    WiredAt(n, e);
    WiredAt(m, f);
    var g := n.peers[f];
    var s := g.id.Prefix() + p;
    DeliveryCirculating(n, m, e, q, a, to, f, p);
    if g != e {
      InFlightElsewhere(n, m, g, s);
    }
    assert InFlight(n, g, s) == InFlight(m, g, s) + When(g == e && s == q, a);
  }
}
