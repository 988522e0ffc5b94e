/** Runs of the network and what holds in every state they reach. */
module Runs {
  import opened Basics
  import opened Strings
  import opened Denoms
  import opened HopStack
  import opened Heights
  import opened Banking
  import opened Chains
  import opened Network
  import opened BalanceSheet
  import opened Safety
  import Packets

  // ---------------------------------------------------------------- steps outside the protocol

  /** Stores of all ends are as before; an open end may have closed. */
  ghost predicate StoresKept(n: Net, m: Net)
    requires n.Wired() && m.Wired() && m.peers == n.peers
  {
    forall f :: f in n.peers ==>
      var t, s := m.At(f), n.At(f);
      && t.commitments == s.commitments && t.history == s.history && t.nextSequenceSend == s.nextSequenceSend
      && t.receipts == s.receipts && t.acks == s.acks
      && (t.closedAt == s.closedAt || (s.closedAt.None? && t.closedAt == Some(n.chains[f.chain].height)))
  }

  /** Escrow accounts change by what is recorded as gifts and the supply of vouchers not at all. */
  ghost predicate EscrowsKept(n: Net, m: Net)
    requires m.chains.Keys == n.chains.Keys
  {
    && (forall c, id, d :: c in n.chains ==>
          m.chains[c].bank.Balance(Escrow(id), d) + n.Gift(c, Escrow(id), d)
          == n.chains[c].bank.Balance(Escrow(id), d) + m.Gift(c, Escrow(id), d))
    && (forall c, h :: c in n.chains ==>
          m.chains[c].bank.Supply(Ibc(h, Canonical)) == n.chains[c].bank.Supply(Ibc(h, Canonical)))
  }

  lemma QuietKeepsChannel(n: Net, m: Net, c: string, f: End)
    requires Inv(n) && OnlyChain(n, m, c) && c in n.chains && m.log == n.log && f in n.peers
    requires Packets.Grows(n.chains[c], m.chains[c]) && StoresKept(n, m)
    ensures ChannelOk(m, f)
  {
    hide Inv, ChainOk, Packets.Grows, PacketsOk, Net.Wired, Net.Complete, Net.Named;
    InvAt(n, f);
    OtherChannelStays(n, m, c, f);
  }

  lemma QuietKeepsSheet(n: Net, m: Net, f: End, p: string)
    requires n.Wired() && m.Wired() && m.peers == n.peers && m.chains.Keys == n.chains.Keys && n.Named() && f in n.peers
    requires StoresKept(n, m) && EscrowsKept(n, m) && Backed(n, f, p)
    ensures Backed(m, f, p)
  {
    hide CoinOf, Net.Wired, HasPrefix, Hop.Prefix, Hop.Valid, Net.Gift, Bank.Balance, Bank.Supply, InFlight;
    WiredAt(n, f);
    WiredAt(m, f);
    var g := n.peers[f];
    PrefixedKeepsSlash(g.id, p);
    InFlightElsewhere(n, m, f, p);
    InFlightElsewhere(n, m, g, g.id.Prefix() + p);
  }

  lemma QuietKeepsInv(n: Net, m: Net, c: string)
    requires Inv(n) && OnlyChain(n, m, c) && c in n.chains && m.Named() && m.Complete() && ChainOk(m.chains[c]) && m.log == n.log
    requires Packets.Grows(n.chains[c], m.chains[c]) && StoresKept(n, m) && EscrowsKept(n, m)
    ensures Inv(m)
  {
    hide Inv, ChainOk, ChannelOk, Backed, Unminted, Unmintable, Packets.Grows, Net.Complete, Net.Named, Net.Wired, LosesSlash, StoresKept, EscrowsKept;
    InvParts(n, c);
    EscrowsKeptSupplies(n, m);
    forall f | f in m.peers
      ensures ChannelOk(m, f)
    {
      QuietKeepsChannel(n, m, c, f);
    }
    forall f, p | f in m.peers && !LosesSlash(p)
      ensures Backed(m, f, p)
    {
      InvBacked(n, f, p);
      QuietKeepsSheet(n, m, f, p);
    }
    forall f, p | f in m.peers && Unmintable(f.id, p)
      ensures Unminted(m, f, p)
    {
      InvUnminted(n, f, p);
      QuietKeepsUnminted(n, m, f, p);
    }
    InvFrom(n, m, c);
  }

  /** Where no voucher appears and no store changes, none of an unmintable path appears. */
  lemma QuietKeepsUnminted(n: Net, m: Net, f: End, p: string)
    requires n.Wired() && m.Wired() && m.peers == n.peers && m.chains.Keys == n.chains.Keys && n.Named() && f in n.peers
    requires StoresKept(n, m) && Unminted(n, f, p)
    requires forall c, h :: c in n.chains ==> m.chains[c].bank.Supply(Ibc(h, Canonical)) <= n.chains[c].bank.Supply(Ibc(h, Canonical))
    ensures Unminted(m, f, p)
  {
    hide CoinOf, Net.Wired, HasPrefix, Hop.Prefix, Hop.Valid, Bank.Supply, InFlight;
    WiredAt(n, f);
    WiredAt(m, f);
    var g := n.peers[f];
    PrefixedKeepsSlash(g.id, p);
    InFlightElsewhere(n, m, g, g.id.Prefix() + p);
  }

  lemma EscrowsKeptSupplies(n: Net, m: Net)
    requires m.chains.Keys == n.chains.Keys && EscrowsKept(n, m)
    ensures forall c, h :: c in n.chains ==> m.chains[c].bank.Supply(Ibc(h, Canonical)) <= n.chains[c].bank.Supply(Ibc(h, Canonical))
  {
    hide Bank.Supply, Bank.Balance, Net.Gift;
  }

  lemma SameChannelsKeepNames(n: Net, m: Net, c: string)
    requires n.Named() && n.Complete() && c in n.chains
    requires m.peers == n.peers && m.chains.Keys == n.chains.Keys && (forall x :: x in n.chains && x != c ==> m.chains[x] == n.chains[x])
    requires m.chains[c].channels == n.chains[c].channels
    ensures m.Named() && m.Complete()
  {
    hide Hop.Valid;
  }

  lemma SameChannelsKeepWiring(n: Net, m: Net, c: string)
    requires n.Wired() && n.Named() && n.Complete() && c in n.chains
    requires m.peers == n.peers && m.chains.Keys == n.chains.Keys && (forall x :: x in n.chains && x != c ==> m.chains[x] == n.chains[x])
    requires m.chains[c].channels == n.chains[c].channels
    ensures OnlyChain(n, m, c) && m.Named() && m.Complete() && StoresKept(n, m)
  {
    hide Net.Complete, Net.Named;
    SameChannelsKeepNames(n, m, c);
    forall f | f in n.peers
      ensures m.WiredEnd(f) && m.At(f) == n.At(f)
    {
      assert n.WiredEnd(f);
    }
    hide Net.WiredEnd;
  }

  /** Payments, native mints, parameter changes and new blocks. */
  lemma BankStepKeepsInv(n: Net, c: string, d: Chain, to: Address, coin: Denom, amount: nat)
    requires Inv(n) && c in n.chains && ChainOk(d) && d.channels == n.chains[c].channels && Packets.Grows(n.chains[c], d)
    requires forall id, x :: d.bank.Balance(Escrow(id), x) == n.chains[c].bank.Balance(Escrow(id), x) + When(Escrow(id) == to && x == coin, amount)
    requires forall h :: d.bank.Supply(Ibc(h, Canonical)) == n.chains[c].bank.Supply(Ibc(h, Canonical))
    ensures Inv(n.WithChain(c, d).AddGift(c, to, coin, amount))
  {
    hide Inv, ChainOk, Packets.Grows, Bank.Balance, Bank.Supply, Net.Wired, Net.Complete, Net.Named, StoresKept;
    InvParts(n, c);
    var m := n.WithChain(c, d).AddGift(c, to, coin, amount);
    SameChannelsKeepWiring(n, m, c);
    assert EscrowsKept(n, m);
    QuietKeepsInv(n, m, c);
  }

  lemma PayKeepsChain(c: Chain, from: Address, to: Address, d: Denom, amount: nat)
    requires ChainOk(c) && c.bank.SendCoins(from, to, d, amount).Some?
    ensures ChainOk(c.(bank := c.bank.SendCoins(from, to, d, amount).value))
  {
    var b := c.bank.SendCoins(from, to, d, amount).value;
    SendConserves(c.bank, from, to, d, amount);
    forall a, h, k
      ensures b.Balance(a, Ibc(h, Alternate(k))) == 0
    {
      assert c.bank.Balance(a, Ibc(h, Alternate(k))) == 0 && c.bank.Balance(from, Ibc(h, Alternate(k))) == 0;
    }
    hide Bank.Conserved, Bank.SendCoins, GoodTrace, Bank.Balance;
  }

  lemma MintKeepsChain(c: Chain, to: Address, text: string, amount: nat)
    requires ChainOk(c)
    ensures ChainOk(c.(bank := c.bank.MintCoins(to, Plain(text), amount)))
  {
    MintConserves(c.bank, to, Plain(text), amount);
    hide Bank.Conserved, Bank.MintCoins, GoodTrace, Bank.Balance, Bank.Supply;
  }

  lemma BurnKeepsChain(c: Chain, from: Address, d: Denom, amount: nat)
    requires ChainOk(c) && c.bank.BurnCoins(from, d, amount).Some?
    ensures ChainOk(c.(bank := c.bank.BurnCoins(from, d, amount).value))
  {
    BurnConserves(c.bank, from, d, amount);
    var b := c.bank.BurnCoins(from, d, amount).value;
    forall a, h, k
      ensures b.Balance(a, Ibc(h, Alternate(k))) == 0
    {
      assert c.bank.Balance(a, Ibc(h, Alternate(k))) == 0;
    }
    forall h | b.Supply(Ibc(h, Canonical)) > 0
      ensures h in c.traces
    {
      assert c.bank.Supply(Ibc(h, Canonical)) > 0;
    }
    hide Bank.Conserved, Bank.BurnCoins, GoodTrace, Bank.Balance, Bank.Supply;
  }

  lemma TopHopOf(h: Hop, p: string)
    requires h.Valid()
    ensures TopHop(h.Prefix() + p) == h
  {
    hide Hop.Valid, Hop.Prefix, Split;
    HopFree(h);
    SplitPrefix(h, p);
  }

  lemma SurplusFrame(n: Net, c: string, d: Denom, amount: nat)
    ensures var m := AddSurplus(n, c, d, amount); m.peers == n.peers && m.chains == n.chains && m.log == n.log
  {
    hide TopHop, HasPrefix, CoinOf, LosesSlash;
  }

  /** The surplus is booked for exactly the escrow and path that backed the burnt vouchers. */
  lemma SurplusGift(n: Net, c: string, d: Denom, amount: nat, f: End, p: string)
    requires n.Named() && f in n.peers && n.peers[f] in n.peers && n.peers[n.peers[f]] == f && !LosesSlash(p)
    requires forall e :: e in n.peers ==> n.peers[e] in n.peers && n.peers[n.peers[e]] == e
    ensures var g := n.peers[f];
            AddSurplus(n, c, d, amount).Gift(f.chain, Escrow(f.id), CoinOf(p))
            == n.Gift(f.chain, Escrow(f.id), CoinOf(p)) + When(g.chain == c && d == CoinOf(g.id.Prefix() + p), amount)
  {
    hide TopHop, CoinOf, LosesSlash, Hop.Valid, Hop.Prefix;
    var g := n.peers[f];
    var s := g.id.Prefix() + p;
    PrefixedKeepsSlash(g.id, p);
    TopHopOf(g.id, p);
    assert HasPrefix(s, g.id.Prefix()) && s[|g.id.Prefix()|..] == p;
    if d.Ibc? && d.spelling.Canonical? {
      var path := d.digest.preimage;
      var id := TopHop(path);
      if End(c, id) in n.peers && HasPrefix(path, id.Prefix()) {
        PrefixSplits(id, path);
        var q := path[|id.Prefix()|..];
        if !LosesSlash(q) {
          CoinOfInjective(p, q);
        }
      }
    }
  }

  lemma PairedPeers(n: Net)
    requires n.Wired()
    ensures forall e :: e in n.peers ==> n.peers[e] in n.peers && n.peers[n.peers[e]] == e
  {
  }

  lemma BurnKeepsSheet(n: Net, c: string, k: Chain, from: Address, d: Denom, amount: nat, f: End, p: string)
    requires Inv(n) && n.Wired() && c in n.chains && !from.Escrow? && f in n.peers && !LosesSlash(p)
    requires n.chains[c].bank.BurnCoins(from, d, amount) == Some(k.bank)
    requires var m := AddSurplus(n.WithChain(c, k), c, d, amount); m.Wired() && m.peers == n.peers && m.chains == n.WithChain(c, k).chains && StoresKept(n, m)
    ensures Backed(AddSurplus(n.WithChain(c, k), c, d, amount), f, p)
  {
    hide Inv, Net.Wired, CoinOf, LosesSlash, HasPrefix, Hop.Prefix, Hop.Valid, Net.Gift, Bank.Balance, Bank.Supply, Bank.BurnCoins, InFlight, AddSurplus, Net.Complete, Net.Named, ChainOk;
    var m := AddSurplus(n.WithChain(c, k), c, d, amount);
    var g := n.peers[f];
    InvParts(n, c);
    InvBacked(n, f, p);
    WiredAt(n, f);
    WiredAt(m, f);
    PairedPeers(n);
    SurplusGift(n.WithChain(c, k), c, d, amount, f, p) by { NamedStays(n, c, k); }
    assert n.WithChain(c, k).Gift(f.chain, Escrow(f.id), CoinOf(p)) == n.Gift(f.chain, Escrow(f.id), CoinOf(p)) by { GiftStays(n, c, k, f, p); }
    InFlightElsewhere(n, m, f, p);
    InFlightElsewhere(n, m, g, g.id.Prefix() + p);
    assert Escrowed(m, f, p) == Escrowed(n, f, p);
    assert Circulating(m, f, p) + When(g.chain == c && d == CoinOf(g.id.Prefix() + p), amount) == Circulating(n, f, p);
  }

  lemma NamedStays(n: Net, c: string, k: Chain)
    requires n.Named()
    ensures n.WithChain(c, k).Named()
  {
    hide Hop.Valid;
  }

  lemma GiftStays(n: Net, c: string, k: Chain, f: End, p: string)
    ensures n.WithChain(c, k).Gift(f.chain, Escrow(f.id), CoinOf(p)) == n.Gift(f.chain, Escrow(f.id), CoinOf(p))
  {
    hide CoinOf;
  }

  /** Burning native coins or vouchers, by anyone but an escrow. */
  lemma BurnKeepsInv(n: Net, c: string, from: Address, d: Denom, amount: nat)
    requires Inv(n) && c in n.chains && !from.Escrow? && n.chains[c].bank.BurnCoins(from, d, amount).Some?
    ensures Inv(AddSurplus(n.WithChain(c, n.chains[c].(bank := n.chains[c].bank.BurnCoins(from, d, amount).value)), c, d, amount))
  {
    hide Inv, ChainOk, ChannelOk, Backed, Unminted, Unmintable, Packets.Grows, Net.Complete, Net.Named, Net.Wired, LosesSlash, StoresKept, AddSurplus, Bank.BurnCoins, Bank.Balance, Bank.Supply;
    var a := n.chains[c];
    var k := a.(bank := a.bank.BurnCoins(from, d, amount).value);
    var m := AddSurplus(n.WithChain(c, k), c, d, amount);
    InvParts(n, c);
    SurplusFrame(n.WithChain(c, k), c, d, amount);
    BurnKeepsChain(a, from, d, amount);
    GrowsReflexive(a, k);
    SameChannelsKeepWiring(n, m, c);
    forall f | f in m.peers
      ensures ChannelOk(m, f)
    {
      QuietKeepsChannel(n, m, c, f);
    }
    forall f, p | f in m.peers && !LosesSlash(p)
      ensures Backed(m, f, p)
    {
      BurnKeepsSheet(n, c, k, from, d, amount, f, p);
    }
    assert forall x, h :: x in n.chains ==> m.chains[x].bank.Supply(Ibc(h, Canonical)) <= n.chains[x].bank.Supply(Ibc(h, Canonical));
    forall f, p | f in m.peers && Unmintable(f.id, p)
      ensures Unminted(m, f, p)
    {
      InvUnminted(n, f, p);
      QuietKeepsUnminted(n, m, f, p);
    }
    InvFrom(n, m, c);
  }

  lemma BlockKeepsChain(c: Chain, h: Height, t: nat)
    requires ChainOk(c) && c.height.LT(h) && c.Time() <= t
    ensures var d := c.(height := h, blockTimes := c.blockTimes[h := t]); ChainOk(d) && Packets.Grows(c, d)
  {
    hide Bank.Conserved, GoodTrace, Bank.Balance, Bank.Supply;
    var d := c.(height := h, blockTimes := c.blockTimes[h := t]);
    forall x | x in c.blockTimes
      ensures x != h && h.GTE(x) && c.blockTimes[x] <= t
    {
      Packets.GTETransitive(h, c.height, x);
      assert x == c.height || x.LT(c.height);
    }
  }

  lemma CloseKeepsInv(n: Net, c: string, id: Hop)
    requires Inv(n) && c in n.chains && id in n.chains[c].channels && n.chains[c].channels[id].closedAt.None?
    ensures Inv(n.WithChain(c, n.chains[c].WithEnd(id, n.chains[c].channels[id].(closedAt := Some(n.chains[c].height)))))
  {
    hide Inv, ChainOk, Packets.Grows, Bank.Balance, Bank.Supply, Net.Wired, Net.Complete, Net.Named;
    InvParts(n, c);
    var a := n.chains[c];
    var d := a.WithEnd(id, a.channels[id].(closedAt := Some(a.height)));
    var m := n.WithChain(c, d);
    WiringStays(n, c, d, id);
    ChainHasLedger(a);
    ChainFrom(a, d);
    GrowsReflexive(a, d);
    hide StoresKept;
    ClosingKeepsStores(n, c, id);
    QuietKeepsInv(n, m, c);
  }

  lemma ClosingKeepsStores(n: Net, c: string, id: Hop)
    requires Inv(n) && n.Wired() && c in n.chains && id in n.chains[c].channels && n.chains[c].channels[id].closedAt.None?
    requires var m := n.WithChain(c, n.chains[c].WithEnd(id, n.chains[c].channels[id].(closedAt := Some(n.chains[c].height)))); m.Wired()
    ensures StoresKept(n, n.WithChain(c, n.chains[c].WithEnd(id, n.chains[c].channels[id].(closedAt := Some(n.chains[c].height)))))
  {
    hide Inv, Net.Wired, Net.Complete, Net.Named;
    var d := n.chains[c].WithEnd(id, n.chains[c].channels[id].(closedAt := Some(n.chains[c].height)));
    var m := n.WithChain(c, d);
    assert OnlyEnd(n.chains[c], d, id);
    forall f | f in n.peers
      ensures n.WiredEnd(f) && m.WiredEnd(f) && (f != End(c, id) ==> m.At(f) == n.At(f))
    {
      InvWired(n, f);
      EndStays(n, c, d, id, f);
    }
  }

  // ---------------------------------------------------------------- every step

  lemma TransferStep(n: Net, s: Step)
    requires Inv(n) && s.Transfer? && n.Wired()
    ensures Inv(Apply(n, s))
  {
    hide Inv, Net.Wired, ChainOk, TransferMsg, Sends, FullDenomPath;
    if s.chain in n.chains && s.msg.sender.Bech32? && s.msg.sender.address.User? && TransferMsg(n.chains[s.chain], s.msg, s.client).Ok? {
      InvParts(n, s.chain);
      TransferSends(n.chains[s.chain], s.msg, s.client);
      SendKeepsInv(n, s.chain, TransferMsg(n.chains[s.chain], s.msg, s.client).value, s.msg, FullDenomPath(n.chains[s.chain], s.msg.token.denom).value);
    }
  }

  lemma ExecutedArrives(c: Chain, p: Packet, proven: bool)
    requires RecvPacketMsg(c, p, proven).Executed?
    ensures p.dest in c.channels && p.source == c.channels[p.dest].counterparty && proven
  {
    hide RecvCallback;
  }

  lemma RecvStep(n: Net, s: Step)
    requires Inv(n) && s.Recv? && n.Wired()
    ensures Inv(Apply(n, s))
  {
    hide Inv, Net.Wired, ChainOk, RecvPacketMsg, Receives, Hop.Valid, CommitmentShown, CoinOf, ReceivedPath, Net.AddGift, Net.Complete, Net.Named;
    if s.chain in n.chains {
      var c, p := n.chains[s.chain], s.packet;
      var o := RecvPacketMsg(c, p, CommitmentShown(n, p, End(s.chain, p.dest)));
      if o.Executed? {
        ExecutedArrives(c, p, CommitmentShown(n, p, End(s.chain, p.dest)));
        InvParts(n, s.chain);
        EndKnown(n, s.chain, p.dest);
        InvAt(n, End(s.chain, p.dest));
        RecvPacketReceives(c, p, CommitmentShown(n, p, End(s.chain, p.dest)));
        RecvKeepsInv(n, s.chain, o.chain, p, o.info);
        ReceivesCredits(c, o.chain, p, o.info);
      }
    }
  }

  lemma VerifiedAck(c: Chain, p: Packet, ack: Ack, proven: bool)
    requires AcknowledgementMsg(c, p, ack, proven).Executed?
    ensures p.source in c.channels && proven
  {
    hide AckCallback;
  }

  lemma AcknowledgeStep(n: Net, s: Step)
    requires Inv(n) && s.Acknowledge? && n.Wired()
    ensures Inv(Apply(n, s))
  {
    hide Inv, Net.Wired, ChainOk, AcknowledgementMsg, Settles, Expired, Net.Complete, Net.Named;
    if s.chain in n.chains {
      var c, p := n.chains[s.chain], s.packet;
      var e := End(s.chain, p.source);
      var o := AcknowledgementMsg(c, p, s.ack, AckShown(n, p, s.ack, e));
      if o.Executed? {
        VerifiedAck(c, p, s.ack, AckShown(n, p, s.ack, e));
        AcknowledgementSettles(c, p, s.ack, AckShown(n, p, s.ack, e));
        InvWired(n, e);
        InvWired(n, n.peers[e]);
        assert Concludes(n, s.chain, o.chain, p, o.info);
        SettleKeepsInv(n, s.chain, o.chain, p, o.info);
      }
    }
  }

  lemma TimeoutConcludes(n: Net, c: string, p: Packet, o: Outcome<bool>)
    requires Inv(n) && n.Wired() && c in n.chains && o == TimeoutMsg(Verified(n.chains[c]), p) && o.Executed?
    requires var e := End(c, p.source);
             && e in n.peers && n.WiredEnd(e) && n.WiredEnd(n.peers[e])
             && p.dest == n.At(e).counterparty
             && p.sequence in n.At(e).commitments && n.At(e).commitments[p.sequence] == CommitPacket(p)
             && p.sequence !in n.At(n.peers[e]).acks
             && Expired(n.chains[n.peers[e].chain], n.At(n.peers[e]), CommitPacket(p))
    ensures Inv(Settle(n, c, p, o))
  {
    hide Inv, Net.Wired, ChainOk, TimeoutMsg, Settles, Expired, Net.Complete, Net.Named;
    TimeoutSettles(n.chains[c], p);
    assert Concludes(n, c, o.chain, p, true);
    SettleKeepsInv(n, c, o.chain, p, true);
  }

  lemma CommitmentIsHistory(n: Net, e: End, k: nat)
    requires Inv(n) && n.Wired() && e in n.peers && n.WiredEnd(e) && k in n.At(e).commitments
    ensures k in n.At(e).history && n.At(e).history[k] == n.At(e).commitments[k]
  {
    hide Inv, Net.Wired, Net.WiredEnd, ChainOk, Packets.Grows;
    InvAt(n, e);
  }

  lemma TimeoutStep(n: Net, s: Step)
    requires Inv(n) && s.Timeout? && n.Wired()
    ensures Inv(Apply(n, s))
  {
    hide Inv, Net.Wired, ChainOk, TimeoutMsg, Expired, Net.Complete, Net.Named, PacketsOk, Packets.Grows, Height.GTE, Settle;
    if s.chain in n.chains && End(s.chain, s.packet.source) in n.peers {
      var c, p, h, e := n.chains[s.chain], s.packet, s.proofHeight, End(s.chain, s.packet.source);
      var v := TimeoutPacket(c, p, h, ProofTime(n, h, e), AbsenceShown(n, p, h, e));
      if v.Verified? && TimeoutMsg(v, p).Executed? {
        InvAt(n, e);
        InvWired(n, e);
        InvWired(n, n.peers[e]);
        CommitmentIsHistory(n, e, p.sequence);
        var g := n.peers[e];
        Packets.TimeoutExcludesReceipt(n.At(e), n.At(g), c, n.chains[g.chain], e, n.log, p.sequence, h);
        TimeoutConcludes(n, s.chain, p, TimeoutMsg(v, p));
      }
    }
    SettleNothing(n, s.chain, s.packet);
    TimeoutOnlyIfVerified();
  }

  lemma SettleNothing(n: Net, c: string, p: Packet)
    ensures forall o: Outcome<bool> :: !o.Executed? ==> Settle(n, c, p, o) == n
  {
  }

  lemma TimeoutOnlyIfVerified()
    ensures forall p, v: Verification :: !v.Verified? ==> !TimeoutMsg(v, p).Executed?
  {
  }

  lemma TimeoutOnCloseStep(n: Net, s: Step)
    requires Inv(n) && s.TimeoutOnClose? && n.Wired()
    ensures Inv(Apply(n, s))
  {
    hide Inv, Net.Wired, ChainOk, TimeoutMsg, Expired, Net.Complete, Net.Named, PacketsOk, Packets.Grows, Height.GTE, Settle;
    if s.chain in n.chains && End(s.chain, s.packet.source) in n.peers {
      var c, p, h, e := n.chains[s.chain], s.packet, s.proofHeight, End(s.chain, s.packet.source);
      var v := TimeoutOnClosePacket(c, p, CloseShown(n, h, e), AbsenceShown(n, p, h, e));
      if v.Verified? && TimeoutMsg(v, p).Executed? {
        InvAt(n, e);
        InvWired(n, e);
        InvWired(n, n.peers[e]);
        CommitmentIsHistory(n, e, p.sequence);
        var g := n.peers[e];
        Packets.ClosureExcludesReceipt(n.At(e), n.At(g), c, n.chains[g.chain], e, n.log, p.sequence, h);
        TimeoutConcludes(n, s.chain, p, TimeoutMsg(v, p));
      }
    }
    SettleNothing(n, s.chain, s.packet);
    TimeoutOnlyIfVerified();
  }

  lemma OtherStep(n: Net, s: Step)
    requires Inv(n) && n.Wired()
    requires s.Pay? || s.Inflate? || s.Deflate? || s.SetParams? || s.NextBlock? || s.Close?
    ensures Inv(Apply(n, s))
  {
    hide Inv, Net.Wired, ChainOk, Packets.Grows, Bank.Balance, Bank.SendCoins, Bank.MintCoins, Bank.BurnCoins, Height.LT, Chain.Time, AddSurplus;
    if s.chain in n.chains {
      var x := s.chain;
      var c := n.chains[x];
      InvParts(n, x);
      match s
      case Pay(_, from, to, d, amount) =>
        var r := c.bank.SendCoins(from, to, d, amount);
        if !from.Escrow? && r.Some? {
          PayKeepsChain(c, from, to, d, amount);
          GrowsReflexive(c, c.(bank := r.value));
          BankStepKeepsInv(n, x, c.(bank := r.value), to, d, amount);
        }
      case Inflate(_, to, text, amount) =>
        var b := c.bank.MintCoins(to, Plain(text), amount);
        MintKeepsChain(c, to, text, amount);
        GrowsReflexive(c, c.(bank := b));
        BankStepKeepsInv(n, x, c.(bank := b), to, Plain(text), amount);
      case Deflate(_, from, d, amount) =>
        if !from.Escrow? && c.bank.BurnCoins(from, d, amount).Some? {
          BurnKeepsInv(n, x, from, d, amount);
        }
      case SetParams(_, send, receive) =>
        var d := c.(sendEnabled := send, receiveEnabled := receive);
        ChainHasLedger(c);
        ChainFrom(c, d);
        GrowsReflexive(c, d);
        BankStepKeepsInv(n, x, d, User(""), Plain(""), 0);
      case NextBlock(_, h, t) =>
        if c.height.LT(h) && c.Time() <= t {
          BlockKeepsChain(c, h, t);
          BankStepKeepsInv(n, x, c.(height := h, blockTimes := c.blockTimes[h := t]), User(""), Plain(""), 0);
        }
      case Close(_, id) =>
        if id in c.channels && c.channels[id].closedAt.None? {
          CloseKeepsInv(n, x, id);
        }
    }
  }

  /** Every step of a user, a relayer, a chain or the environment keeps the invariant. */
  lemma StepKeepsInv(n: Net, s: Step)
    requires Inv(n)
    ensures n.Wired() && Inv(Apply(n, s))
  {
    assert n.Wired();
    hide Inv, Net.Wired, Apply;
    match s
    case Transfer(_, _, _) => TransferStep(n, s);
    case Recv(_, _) => RecvStep(n, s);
    case Acknowledge(_, _, _) => AcknowledgeStep(n, s);
    case Timeout(_, _, _) => TimeoutStep(n, s);
    case TimeoutOnClose(_, _, _) => TimeoutOnCloseStep(n, s);
    case _ => OtherStep(n, s);
  }
}
