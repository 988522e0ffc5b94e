/** Every step keeps the invariant, so it holds in every state of every run. */
module Safety {
  import opened Basics
  import opened Strings
  import opened Denoms
  import opened HopStack
  import opened Heights
  import opened Totals
  import opened Banking
  import opened Chains
  import opened Network
  import opened BalanceSheet
  import Packets

  // ---------------------------------------------------------------- what a handler changes

  /** The commitment that a transfer of path `q` stores. */
  function SentCommitment(c: Chain, m: MsgTransfer, q: string): Commitment
    requires m.sender.Bech32?
  {
    Commitment(m.timeoutTimestamp, m.timeoutHeight, Ics20(PacketData(q, m.token.amount, Bech32(c.hrp, m.sender.address), m.receiver)))
  }

  function AfterSend(e: ChannelEnd, m: Commitment): ChannelEnd {
    var k := e.nextSequenceSend;
    e.(nextSequenceSend := (k + 1) % TWO_TO_THE_64, commitments := e.commitments[k := m], history := e.history[k := m])
  }

  ghost predicate Sends(c: Chain, d: Chain, m: MsgTransfer, q: string) {
    && m.sender.Bech32? && m.source in c.channels
    && d == c.(bank := d.bank, channels := c.channels[m.source := AfterSend(c.channels[m.source], SentCommitment(c, m, q))])
    && c.channels[m.source].nextSequenceSend != 0
    && !LosesSlash(q) && CoinOf(q) == m.token.denom
    && HonestPayload(c, m.source, SentCommitment(c, m, q).payload)
    && Locks(c.bank, d.bank, m.source, q, m.token.amount, m.sender.address)
    && d.bank.Conserved()
  }

  lemma TransferSends(c: Chain, m: MsgTransfer, client: ClientView)
    requires ChainOk(c) && TransferMsg(c, m, client).Ok? && m.sender.Bech32? && m.sender.address.User?
    ensures FullDenomPath(c, m.token.denom).Ok?
    ensures Sends(c, TransferMsg(c, m, client).value, m, FullDenomPath(c, m.token.denom).value)
  {
    assert c.bank.Conserved();
    hide CoinOf, LosesSlash, HasPrefix, Locks, FullDenomPath, ValidIBCDenom, Hop.Valid, ChainOk;
    var sender, q := m.sender.address, FullDenomPath(c, m.token.denom).value;
    assert LockOrBurn(c.bank, m.source, q, m.token.denom, m.token.amount, sender).Ok?;
    hide LockOrBurn;
    assert m.token.amount <= c.bank.Balance(sender, m.token.denom) by {
      LockOrBurnNeedsFunds(c.bank, m.source, q, m.token.denom, m.token.amount, sender);
    }
    SentCoinIsCoinOfPath(c, m.token.denom, sender, m.token.amount);
    LockOrBurnLocks(c.bank, m.source, q, m.token.denom, m.token.amount, sender);
    if ReceiverChainIsSource(m.source, q) {
      PrefixHasSlash(m.source, q);
    }
    ReservedWordIsRefused(m.token.denom);
  }

  lemma ReservedWordIsRefused(d: Denom)
    requires ValidIBCDenom(d)
    ensures CoinOf(DENOM_PREFIX) != d
  {
    CoinOfCases(DENOM_PREFIX);
  }

  lemma PrefixHasSlash(h: Hop, q: string)
    requires HasPrefix(q, h.Prefix())
    ensures '/' in q
  {
    assert q[|h.port|] == '/';
  }

  lemma LockOrBurnNeedsFunds(b: Bank, source: Hop, q: string, d: Denom, amount: nat, sender: Address)
    requires LockOrBurn(b, source, q, d, amount, sender).Ok?
    ensures amount <= b.Balance(sender, d)
  {
  }

  /** The packet's coins go to the receiver and the trace store learns what was minted. */
  ghost predicate Credits(before: Bank, after: Bank, was: map<Digest, DenomTrace>, now: map<Digest, DenomTrace>, p: Packet) {
    && p.payload.Ics20? && p.payload.data.amount > 0
    && p.payload.data.receiver.Bech32?
    && !LosesSlash(ReceivedPath(p.source, p.dest, p.payload.data.denom))
    && Pays(before, after, p.source, p.dest, p.payload.data.denom, p.payload.data.amount, p.payload.data.receiver.address)
    && (before.Conserved() ==> after.Conserved())
    && TracesGrow(was, now)
    && (SenderChainIsSource(p.source, p.payload.data.denom) ==> Sha256(p.dest.Prefix() + p.payload.data.denom) in now)
  }

  function AfterRecv(e: ChannelEnd, k: nat, h: Height, ack: Ack): ChannelEnd {
    e.(receipts := e.receipts[k := h], acks := e.acks[k := ack])
  }

  ghost predicate Receives(c: Chain, d: Chain, p: Packet, ack: Ack) {
    && p.dest in c.channels && ReceiveError(c, p).None? && p.sequence !in c.channels[p.dest].receipts
    && d == c.(bank := d.bank, traces := d.traces, channels := c.channels[p.dest := AfterRecv(c.channels[p.dest], p.sequence, c.height, ack)])
    && if ack.ResultAck? then Credits(c.bank, d.bank, c.traces, d.traces, p) else d.bank == c.bank && d.traces == c.traces
  }

  lemma CallbackCredits(c: Chain, p: Packet)
    requires p.source.Valid() && p.dest.Valid() && RecvCallback(c, p).0.ResultAck?
    ensures Credits(c.bank, RecvCallback(c, p).1.bank, c.traces, RecvCallback(c, p).1.traces, p)
    ensures var d := RecvCallback(c, p).1; d == c.(bank := d.bank, traces := d.traces)
  {
    var data := p.payload.data;
    if ReceiverChainIsSource(p.source, data.denom) {
      RecvUnescrows(c, p, data);
    } else {
      RecvMints(c, p, data);
    }
    hide CoinOf, LosesSlash, HasPrefix, Pays, OnRecvPacket, Hop.Valid, Hop.Prefix, ReceivedPath;
  }

  lemma AckWritten(c: Chain, c2: Chain, p: Packet, ack: Ack)
    requires p.dest in c.channels
    requires var e := c.channels[p.dest];
             c2 == c.WithEnd(p.dest, e.(receipts := e.receipts[p.sequence := c.height])).(bank := c2.bank, traces := c2.traces)
    requires WriteAcknowledgement(c2, p, ack).Ok?
    ensures WriteAcknowledgement(c2, p, ack).value
            == c.(bank := c2.bank, traces := c2.traces, channels := c.channels[p.dest := AfterRecv(c.channels[p.dest], p.sequence, c.height, ack)])
  {
    var d := WriteAcknowledgement(c2, p, ack).value;
    assert d.channels == c.channels[p.dest := AfterRecv(c.channels[p.dest], p.sequence, c.height, ack)];
  }

  /** An error acknowledgement leaves bank and trace store as they were, while receipt and
      acknowledgement are recorded; a success acknowledgement pays the receiver. */
  lemma RecvPacketReceives(c: Chain, p: Packet, proven: bool)
    requires p.source.Valid() && p.dest.Valid() && RecvPacketMsg(c, p, proven).Executed?
    ensures proven && Receives(c, RecvPacketMsg(c, p, proven).chain, p, RecvPacketMsg(c, p, proven).info)
  {
    assert p.dest in c.channels;
    hide Credits, Hop.Valid, ReceiveError, RecvCallback, WriteAcknowledgement;
    var c1 := ChannelRecvPacket(c, p, proven).chain;
    var ack, c2 := RecvCallback(c1, p).0, if RecvCallback(c1, p).0.ResultAck? then RecvCallback(c1, p).1 else c1;
    if ack.ResultAck? {
      CallbackCredits(c1, p);
    }
    AckWritten(c, c2, p, ack);
  }

  /** Deletes the commitment and, if `refunded`, reverses the send. */
  ghost predicate Settles(c: Chain, d: Chain, p: Packet, refunded: bool) {
    && p.source in c.channels && p.sequence in c.channels[p.source].commitments
    && c.channels[p.source].commitments[p.sequence] == CommitPacket(p)
    && p.dest == c.channels[p.source].counterparty
    && d == c.(bank := d.bank, channels := c.channels[p.source := c.channels[p.source].(commitments := c.channels[p.source].commitments - {p.sequence})])
    && if refunded then
         && p.payload.Ics20? && p.payload.data.amount >= 0 && c.DecodeAddress(p.payload.data.sender).Some?
         && Locks(d.bank, c.bank, p.source, p.payload.data.denom, p.payload.data.amount, c.DecodeAddress(p.payload.data.sender).value)
         && (c.bank.Conserved() ==> d.bank.Conserved())
       else d.bank == c.bank
  }

  lemma AcknowledgementSettles(c: Chain, p: Packet, ack: Ack, proven: bool)
    requires AcknowledgementMsg(c, p, ack, proven).Executed?
    ensures proven && Settles(c, AcknowledgementMsg(c, p, ack, proven).chain, p, ack.ErrorAck?)
    ensures AcknowledgementMsg(c, p, ack, proven).info == ack.ErrorAck?
  {
    var c1 := AcknowledgePacket(c, p, proven).chain;
    if ack.ErrorAck? {
      RefundUnlocks(c1, p, p.payload.data);
    }
    hide RefundPacketToken, Locks, CoinOf;
  }

  lemma TimeoutSettles(c: Chain, p: Packet)
    requires TimeoutMsg(Verified(c), p).Executed?
    requires p.source in c.channels && p.sequence in c.channels[p.source].commitments && c.channels[p.source].commitments[p.sequence] == CommitPacket(p)
    requires p.dest == c.channels[p.source].counterparty
    ensures Settles(c, TimeoutMsg(Verified(c), p).chain, p, true) && TimeoutMsg(Verified(c), p).info
  {
    RefundUnlocks(c, p, p.payload.data);
    hide RefundPacketToken, Locks, CoinOf;
  }

  // ---------------------------------------------------------------- one chain's invariant

  lemma CoinIsCanonical(q: string)
    ensures CoinOf(q).Ibc? ==> CoinOf(q).spelling == Canonical
  {
  }

  /** The parts of `ChainOk` that handlers touch. */
  ghost predicate LedgerOk(b: Bank, traces: map<Digest, DenomTrace>) {
    && b.Conserved()
    && (forall a, h, k :: b.Balance(a, Ibc(h, Alternate(k))) == 0)
    && (forall h :: h in traces ==> traces[h].Hash() == h && GoodTrace(traces[h]))
    && (forall h :: b.Supply(Ibc(h, Canonical)) > 0 ==> h in traces)
  }

  lemma LockKeepsLedger(b: Bank, d: Bank, traces: map<Digest, DenomTrace>, source: Hop, q: string, a: nat, who: Address)
    requires LedgerOk(b, traces) && Locks(b, d, source, q, a, who) && d.Conserved()
    ensures LedgerOk(d, traces)
  {
    CoinIsCanonical(q);
    hide CoinOf, HasPrefix, GoodTrace, Bank.Balance, Bank.Supply, Bank.Conserved;
    forall x, h, k
      ensures d.Balance(x, Ibc(h, Alternate(k))) == 0
    {
      assert b.Balance(x, Ibc(h, Alternate(k))) == 0;
    }
    forall h | d.Supply(Ibc(h, Canonical)) > 0
      ensures h in traces
    {
      assert b.Supply(Ibc(h, Canonical)) > 0;
    }
  }

  lemma UnlockKeepsLedger(b: Bank, d: Bank, traces: map<Digest, DenomTrace>, source: Hop, q: string, a: nat, who: Address)
    requires LedgerOk(b, traces) && Locks(d, b, source, q, a, who) && d.Conserved() && source.Valid()
    requires ReceiverChainIsSource(source, q) ==> Sha256(q) in traces
    ensures LedgerOk(d, traces)
  {
    CoinIsCanonical(q);
    if ReceiverChainIsSource(source, q) {
      PrefixSplits(source, q);
      PrefixedKeepsSlash(source, q[|source.Prefix()|..]);
    }
    hide CoinOf, HasPrefix, GoodTrace, Bank.Balance, Bank.Supply, Bank.Conserved, Hop.Valid, Hop.Prefix;
    forall x, h, k
      ensures d.Balance(x, Ibc(h, Alternate(k))) == 0
    {
      assert b.Balance(x, Ibc(h, Alternate(k))) == 0;
    }
    forall h | d.Supply(Ibc(h, Canonical)) > 0
      ensures h in traces
    {
      assert b.Supply(Ibc(h, Canonical)) > 0 || Ibc(h, Canonical) == CoinOf(q);
    }
  }

  lemma CreditKeepsLedger(b: Bank, d: Bank, traces: map<Digest, DenomTrace>, now: map<Digest, DenomTrace>, p: Packet)
    requires LedgerOk(b, traces) && Credits(b, d, traces, now, p) && p.dest.Valid()
    ensures LedgerOk(d, now)
  {
    var z := ReceivedPath(p.source, p.dest, p.payload.data.denom);
    CoinIsCanonical(z);
    PrefixedKeepsSlash(p.dest, p.payload.data.denom);
    assert SenderChainIsSource(p.source, p.payload.data.denom) ==> CoinOf(z) == Ibc(Sha256(p.dest.Prefix() + p.payload.data.denom), Canonical);
    hide CoinOf, HasPrefix, GoodTrace, Bank.Balance, Bank.Supply, Bank.Conserved, Hop.Valid, Hop.Prefix, ReceivedPath, LosesSlash;
    forall x, h, k
      ensures d.Balance(x, Ibc(h, Alternate(k))) == 0
    {
      assert b.Balance(x, Ibc(h, Alternate(k))) == 0;
    }
    forall h | d.Supply(Ibc(h, Canonical)) > 0
      ensures h in now
    {
      assert b.Supply(Ibc(h, Canonical)) > 0 || Ibc(h, Canonical) == CoinOf(z);
    }
  }

  // ---------------------------------------------------------------- frames

  /** `d` is `c` with other stores at the end `id`; wiring and the other ends are untouched. */
  ghost predicate OnlyEnd(c: Chain, d: Chain, id: Hop) {
    && id in c.channels && d.channels.Keys == c.channels.Keys
    && (forall x :: x in c.channels && x != id ==> d.channels[x] == c.channels[x])
    && d.channels[id].counterparty == c.channels[id].counterparty
  }

  ghost predicate OnlyKeys(c: Chain, d: Chain) {
    d.channels.Keys == c.channels.Keys
  }

  lemma OnlyEndKeys(c: Chain, d: Chain, id: Hop)
    requires OnlyEnd(c, d, id)
    ensures OnlyKeys(c, d) && id in c.channels
  {
  }

  lemma EndKnown(n: Net, c: string, id: Hop)
    requires n.Complete() && c in n.chains && id in n.chains[c].channels
    ensures End(c, id) in n.peers
  {
  }

  lemma CompleteStays(n: Net, c: string, d: Chain)
    requires n.Complete() && c in n.chains && OnlyKeys(n.chains[c], d)
    ensures n.WithChain(c, d).Complete()
  {
  }

  lemma EndStays(n: Net, c: string, d: Chain, id: Hop, f: End)
    requires c in n.chains && OnlyEnd(n.chains[c], d, id) && n.WiredEnd(f)
    ensures var m := n.WithChain(c, d);
            && m.WiredEnd(f) && (f != End(c, id) ==> m.At(f) == n.At(f))
  {
  }

  lemma WiringStays(n: Net, c: string, d: Chain, id: Hop)
    requires n.Wired() && n.Named() && n.Complete() && c in n.chains && OnlyEnd(n.chains[c], d, id)
    ensures End(c, id) in n.peers
    ensures var m := n.WithChain(c, d); OnlyChain(n, m, c) && m.Named() && m.Complete()
  {
    hide Net.Complete, Hop.Valid, OnlyEnd, Net.WiredEnd;
    OnlyEndKeys(n.chains[c], d, id);
    EndKnown(n, c, id);
    CompleteStays(n, c, d);
    forall f | f in n.peers
      ensures n.WithChain(c, d).WiredEnd(f)
    {
      EndStays(n, c, d, id, f);
    }
  }

  lemma GrowsReflexive(c: Chain, d: Chain)
    requires d.hrp == c.hrp && d.blockTimes == c.blockTimes && d.height == c.height
    requires forall h :: h in c.traces ==> h in d.traces
    ensures Packets.Grows(c, d)
  {
  }

  lemma InvAt(n: Net, f: End)
    requires Inv(n) && f in n.peers
    ensures var g := n.peers[f];
            && g in n.peers && n.peers[g] == f && g != f
            && f.chain in n.chains && f.id in n.chains[f.chain].channels
            && g.chain in n.chains && g.id in n.chains[g.chain].channels
            && n.Wired() && ChannelOk(n, f) && ChainOk(n.chains[f.chain]) && ChainOk(n.chains[g.chain])
            && f.id.Valid() && g.id.Valid() && n.At(f).counterparty == g.id
            && (forall h :: h in n.chains[g.chain].blockTimes ==> n.chains[g.chain].height.GTE(h))
            && Packets.Grows(n.chains[f.chain], n.chains[f.chain]) && Packets.Grows(n.chains[g.chain], n.chains[g.chain])
  {
    hide Net.Complete, Hop.Valid, Backed, Unminted, Unmintable, ChannelOk, Packets.Grows, Bank.Conserved, GoodTrace, Bank.Balance, Bank.Supply;
    var g := n.peers[f];
    assert n.WiredEnd(f) && n.WiredEnd(g);
    GrowsReflexive(n.chains[f.chain], n.chains[f.chain]);
    GrowsReflexive(n.chains[g.chain], n.chains[g.chain]);
  }

  /** A channel direction whose stores did not change is still fine. */
  lemma OtherChannelStays(n: Net, m: Net, c: string, f: End)
    requires Inv(n) && OnlyChain(n, m, c) && c in n.chains && Packets.Grows(n.chains[c], m.chains[c]) && f in n.peers
    requires m.At(f).commitments == n.At(f).commitments && m.At(f).history == n.At(f).history
    requires m.At(f).nextSequenceSend == n.At(f).nextSequenceSend
    requires m.At(n.peers[f]).receipts == n.At(n.peers[f]).receipts && m.At(n.peers[f]).acks == n.At(n.peers[f]).acks
    requires var u, r := m.At(n.peers[f]), n.At(n.peers[f]);
             u.closedAt == r.closedAt || (r.closedAt.None? && u.closedAt == Some(n.chains[n.peers[f].chain].height))
    requires forall k :: m.log[Credited(f, k)] == n.log[Credited(f, k)] && m.log[Refunded(f, k)] == n.log[Refunded(f, k)]
    ensures ChannelOk(m, f)
  {
    hide Inv, Net.Wired, ChainOk, Packets.Grows, PacketsOk, Height.GTE;
    InvAt(n, f);
    WiredAt(m, f);
    var g := n.peers[f];
    Packets.SurroundingsChange(n.At(f), n.At(g), n.chains[f.chain], n.chains[g.chain], n.log, f,
                               m.At(f), m.At(g), m.chains[f.chain], m.chains[g.chain], m.log);
  }

  lemma ChainFrom(c: Chain, d: Chain)
    requires ChainOk(c) && LedgerOk(d.bank, d.traces)
    requires d.blocked == c.blocked && d.height == c.height && d.blockTimes == c.blockTimes
    ensures ChainOk(d)
  {
    hide Bank.Conserved, GoodTrace, Bank.Balance, Bank.Supply;
  }

  lemma ChainHasLedger(c: Chain)
    requires ChainOk(c)
    ensures LedgerOk(c.bank, c.traces)
  {
    hide Bank.Conserved, GoodTrace, Bank.Balance, Bank.Supply;
  }

  lemma InvParts(n: Net, c: string)
    requires Inv(n) && c in n.chains
    ensures n.Wired() && n.Named() && n.Complete() && ChainOk(n.chains[c])
  {
    hide ChainOk, ChannelOk, Backed, Unminted, Unmintable, Net.Complete, Net.Named, Net.WiredEnd, LosesSlash;
  }

  lemma InvBacked(n: Net, f: End, p: string)
    requires Inv(n) && f in n.peers && !LosesSlash(p)
    ensures n.Wired() && Backed(n, f, p)
  {
    hide ChainOk, ChannelOk, Backed, Unminted, Unmintable, Net.Complete, Net.Named, Net.WiredEnd, LosesSlash;
  }

  lemma InvFrom(n: Net, m: Net, c: string)
    requires Inv(n) && OnlyChain(n, m, c) && c in n.chains && m.Named() && m.Complete() && ChainOk(m.chains[c])
    requires forall f :: f in m.peers ==> ChannelOk(m, f)
    requires forall f, p :: f in m.peers && !LosesSlash(p) ==> Backed(m, f, p)
    requires forall f, p :: f in m.peers && Unmintable(f.id, p) ==> Unminted(m, f, p)
    ensures Inv(m)
  {
    hide ChainOk, ChannelOk, Backed, Unminted, Unmintable, Net.Complete, Net.Named, Net.WiredEnd, LosesSlash;
  }

  lemma InvUnminted(n: Net, f: End, p: string)
    requires Inv(n) && f in n.peers && Unmintable(f.id, p)
    ensures n.Wired() && Unminted(n, f, p)
  {
    hide ChainOk, ChannelOk, Backed, Unminted, Unmintable, Net.Complete, Net.Named, Net.WiredEnd, LosesSlash;
  }

  // ---------------------------------------------------------------- sending

  lemma SendKeepsChain(c: Chain, d: Chain, msg: MsgTransfer, q: string)
    requires ChainOk(c) && Sends(c, d, msg, q)
    ensures ChainOk(d) && OnlyEnd(c, d, msg.source) && Packets.Grows(c, d)
  {
    hide ChainOk, HonestPayload, CoinOf, LosesSlash, Locks, Bank.Conserved;
    ChainHasLedger(c);
    LockKeepsLedger(c.bank, d.bank, c.traces, msg.source, q, msg.token.amount, msg.sender.address);
    ChainFrom(c, d);
    GrowsReflexive(c, d);
  }

  lemma SendKeepsOwnChannel(n: Net, c: string, d: Chain, msg: MsgTransfer, q: string)
    requires Inv(n) && c in n.chains && Sends(n.chains[c], d, msg, q) && End(c, msg.source) in n.peers
    requires OnlyChain(n, n.WithChain(c, d), c) && Packets.Grows(n.chains[c], d)
    ensures ChannelOk(n.WithChain(c, d), End(c, msg.source))
    ensures var e := End(c, msg.source); var k := n.At(e).nextSequenceSend; k !in n.At(e).commitments && k !in n.At(n.peers[e]).acks
  {
    hide Inv, Net.Wired, ChainOk, Packets.Grows, PacketsOk, Height.GTE, HonestPayload, CoinOf, LosesSlash, Locks, Bank.Conserved;
    var m, e := n.WithChain(c, d), End(c, msg.source);
    InvAt(n, e);
    var g := n.peers[e];
    var t := AfterSend(n.At(e), SentCommitment(n.chains[c], msg, q));
    Packets.Send(n.At(e), n.At(g), n.chains[c], n.chains[g.chain], e, n.log, SentCommitment(n.chains[c], msg, q), t);
    assert m.At(e) == t && m.At(g) == n.At(g);
    Packets.SurroundingsChange(t, n.At(g), n.chains[c], n.chains[g.chain], n.log, e,
                               m.At(e), m.At(g), m.chains[c], m.chains[g.chain], m.log);
  }

  lemma SendCommits(n: Net, c: string, d: Chain, msg: MsgTransfer, q: string)
    requires n.Wired() && c in n.chains && Sends(n.chains[c], d, msg, q) && End(c, msg.source) in n.peers && msg.sender.address.User?
    requires OnlyChain(n, n.WithChain(c, d), c) && OnlyEnd(n.chains[c], d, msg.source)
    requires var e := End(c, msg.source); var k := n.At(e).nextSequenceSend; k !in n.At(e).commitments && k !in n.At(n.peers[e]).acks
    ensures Commits(n, n.WithChain(c, d), End(c, msg.source), q, msg.token.amount, msg.sender.address)
  {
    var m, e := n.WithChain(c, d), End(c, msg.source);
    var g := n.peers[e];
    WiredAt(n, e);
    hide HonestPayload, CoinOf, LosesSlash, Locks, Bank.Conserved;
    forall f | f in n.peers
      ensures m.At(f).acks == n.At(f).acks && (f != e ==> m.At(f).commitments == n.At(f).commitments)
    {
      EndStays(n, c, d, msg.source, f);
    }
    assert OnlyCommitments(n, m, e);
    hide OnlyEnd, Net.Wired, OnlyCommitments;
    WiredAt(m, e);
    EndStays(n, c, d, msg.source, g);
    var cm := SentCommitment(n.chains[c], msg, q);
    forall p
      ensures InFlight(m, e, p) == InFlight(n, e, p) + When(p == q, msg.token.amount)
    {
      OwingAdd(n.At(e).commitments, n.At(g).acks, p, n.At(e).nextSequenceSend, cm);
    }
  }

  lemma SendKeepsInv(n: Net, c: string, d: Chain, msg: MsgTransfer, q: string)
    requires Inv(n) && c in n.chains && Sends(n.chains[c], d, msg, q) && msg.sender.Bech32? && msg.sender.address.User?
    ensures Inv(n.WithChain(c, d))
  {
    hide Inv, Sends, ChainOk, ChannelOk, Backed, Unminted, Unmintable, Packets.Grows, Net.Complete, Net.Named, OnlyEnd, Net.Wired, LosesSlash;
    var m, e := n.WithChain(c, d), End(c, msg.source);
    InvParts(n, c);
    SendKeepsChain(n.chains[c], d, msg, q);
    WiringStays(n, c, d, msg.source);
    SendKeepsOwnChannel(n, c, d, msg, q);
    SendCommits(n, c, d, msg, q);
    forall f | f in n.peers && f != e
      ensures ChannelOk(m, f)
    {
      OtherChannelAfterSend(n, c, d, msg, q, f);
    }
    forall f, p | f in n.peers && !LosesSlash(p)
      ensures Backed(m, f, p)
    {
      InvBacked(n, f, p);
      CommitKeepsSheet(n, m, e, q, msg.token.amount, msg.sender.address, f, p);
    }
    forall f, p | f in n.peers && Unmintable(f.id, p)
      ensures Unminted(m, f, p)
    {
      InvUnminted(n, f, p);
      CommitKeepsUnminted(n, m, e, q, msg.token.amount, msg.sender.address, f, p);
    }
    InvFrom(n, m, c);
  }

  lemma OtherChannelAfterSend(n: Net, c: string, d: Chain, msg: MsgTransfer, q: string, f: End)
    requires Inv(n) && c in n.chains && Sends(n.chains[c], d, msg, q) && f in n.peers && f != End(c, msg.source)
    requires OnlyChain(n, n.WithChain(c, d), c) && Packets.Grows(n.chains[c], d) && OnlyEnd(n.chains[c], d, msg.source)
    ensures ChannelOk(n.WithChain(c, d), f)
  {
    hide HonestPayload, CoinOf, LosesSlash, Locks, Bank.Conserved, ChainOk, ChannelOk, Backed, Unminted, Unmintable, Packets.Grows, Net.Complete, Net.Named;
    WiredAt(n, f);
    EndStays(n, c, d, msg.source, f);
    EndStays(n, c, d, msg.source, n.peers[f]);
    hide OnlyEnd, Net.Wired, Inv;
    OtherChannelStays(n, n.WithChain(c, d), c, f);
  }

  // ---------------------------------------------------------------- receiving

  /** The network after a receive, with its bookkeeping. */
  function AfterReceive(n: Net, c: string, d: Chain, p: Packet, ack: Ack, e: End): Net {
    var m := n.WithChain(c, d);
    if ack.ResultAck? && p.payload.Ics20? && p.payload.data.receiver.Bech32? && p.payload.data.amount >= 0 then
      m.Logged(Credited(e, p.sequence))
      .AddGift(c, p.payload.data.receiver.address, CoinOf(ReceivedPath(p.source, p.dest, p.payload.data.denom)), p.payload.data.amount)
    else m
  }

  lemma ReceivesCredits(c: Chain, d: Chain, p: Packet, ack: Ack)
    requires Receives(c, d, p, ack)
    ensures ack.ResultAck? ==> p.payload.Ics20? && p.payload.data.receiver.Bech32? && p.payload.data.amount >= 0
  {
    hide LosesSlash, Pays, Bank.Conserved, TracesGrow;
  }

  lemma RecvKeepsChain(c: Chain, d: Chain, p: Packet, ack: Ack)
    requires ChainOk(c) && Receives(c, d, p, ack) && p.dest.Valid()
    ensures ChainOk(d) && OnlyEnd(c, d, p.dest) && Packets.Grows(c, d)
  {
    assert ack.ResultAck? ==> TracesGrow(c.traces, d.traces);
    hide ChainOk, Credits, LedgerOk, ReceiveError, Hop.Valid;
    ChainHasLedger(c);
    if ack.ResultAck? {
      CreditKeepsLedger(c.bank, d.bank, c.traces, d.traces, p);
    }
    ChainFrom(c, d);
    GrowsReflexive(c, d);
  }

  /** The ends of a received packet: `e` sent it, `End(c, p.dest)` receives it. */
  ghost predicate Arrives(n: Net, c: string, d: Chain, p: Packet, ack: Ack, e: End) {
    && Inv(n) && c in n.chains && Receives(n.chains[c], d, p, ack)
    && End(c, p.dest) in n.peers && e == n.peers[End(c, p.dest)]
    && CommitmentShown(n, p, End(c, p.dest))
    && OnlyChain(n, n.WithChain(c, d), c) && OnlyEnd(n.chains[c], d, p.dest) && Packets.Grows(n.chains[c], d)
  }

  lemma ArrivalIsCommitted(n: Net, c: string, d: Chain, p: Packet, ack: Ack, e: End)
    requires Arrives(n, c, d, p, ack, e)
    ensures n.Wired() && e in n.peers && n.peers[e] == End(c, p.dest) && e.id == p.source && e.id.Valid() && p.dest.Valid()
    ensures var s := n.At(e);
            && p.sequence in s.history && p.sequence in s.commitments && s.commitments[p.sequence] == CommitPacket(p)
            && p.sequence !in n.At(End(c, p.dest)).acks
            && HonestPayload(n.chains[e.chain], e.id, p.payload)
  {
    hide Inv, Net.Wired, ChainOk, Packets.Grows, OnlyEnd, OnlyChain, Credits, HonestPayload, Height.GTE, Hop.Valid;
    InvAt(n, End(c, p.dest));
    InvAt(n, e);
    Packets.AcceptedIsCommitted(n.At(e), n.chains[c].channels[p.dest], n.chains[e.chain], n.chains[c], e, n.log, p);
  }

  lemma ArrivalIsNoReservedWord(n: Net, c: string, d: Chain, p: Packet, ack: Ack, e: End)
    requires Arrives(n, c, d, p, ack, e)
    ensures p.payload.Ics20? && p.payload.data.denom != DENOM_PREFIX && "x" != DENOM_PREFIX
  {
    hide Arrives, LosesSlash, HasPrefix;
    ArrivalIsCommitted(n, c, d, p, ack, e);
  }

  lemma RecvKeepsOwnChannel(n: Net, c: string, d: Chain, p: Packet, ack: Ack, e: End)
    requires Arrives(n, c, d, p, ack, e)
    ensures var m := AfterReceive(n, c, d, p, ack, e); m.Wired() && e in m.peers && ChannelOk(m, e)
  {
    hide Inv, Net.Wired, ChainOk, Packets.Grows, OnlyEnd, Credits, HonestPayload, Height.GTE, Hop.Valid, PacketsOk, CoinOf, ReceivedPath, ReceiveError;
    ReceivesCredits(n.chains[c], d, p, ack);
    ArrivalIsCommitted(n, c, d, p, ack, e);
    InvAt(n, e);
    var m, g := AfterReceive(n, c, d, p, ack, e), End(c, p.dest);
    assert n.chains[c].height in n.chains[c].blockTimes by { ChainHasHeight(n.chains[c]); }
    AfterReceiveParts(n, c, d, p, ack, e);
    WiredAt(n.WithChain(c, d), e);
    var u := AfterRecv(n.At(g), p.sequence, n.chains[c].height, ack);
    assert m.At(e).commitments == n.At(e).commitments && m.At(e).history == n.At(e).history && m.At(e).nextSequenceSend == n.At(e).nextSequenceSend by {
      EndStays(n, c, d, p.dest, e);
    }
    Packets.Receive(n.At(e), n.At(g), n.chains[e.chain], n.chains[c], e, n.log, p, ack, u);
    Packets.SurroundingsChange(n.At(e), u, n.chains[e.chain], n.chains[c], m.log, e,
                               m.At(e), m.At(g), m.chains[e.chain], m.chains[c], m.log);
  }

  lemma ChainHasHeight(c: Chain)
    requires ChainOk(c)
    ensures c.height in c.blockTimes
  {
  }

  lemma AfterReceiveParts(n: Net, c: string, d: Chain, p: Packet, ack: Ack, e: End)
    requires ack.ResultAck? ==> p.payload.Ics20? && p.payload.data.receiver.Bech32? && p.payload.data.amount >= 0
    ensures var m := AfterReceive(n, c, d, p, ack, e);
            && m.peers == n.peers && m.chains == n.WithChain(c, d).chains
            && m.log == (if ack.ResultAck? then n.log + multiset{Credited(e, p.sequence)} else n.log)
            && m.gifts == (if ack.ResultAck? then n.AddGift(c, p.payload.data.receiver.address, CoinOf(ReceivedPath(p.source, p.dest, p.payload.data.denom)), p.payload.data.amount).gifts else n.gifts)
    ensures n.WithChain(c, d).Wired() ==> AfterReceive(n, c, d, p, ack, e).Wired()
  {
    hide CoinOf, ReceivedPath;
  }

  lemma OtherChannelAfterRecv(n: Net, c: string, d: Chain, p: Packet, ack: Ack, e: End, f: End)
    requires Arrives(n, c, d, p, ack, e) && f in n.peers && f != e
    ensures var m := AfterReceive(n, c, d, p, ack, e); m.Wired() && f in m.peers && ChannelOk(m, f)
  {
    hide Inv, Net.Wired, ChainOk, Packets.Grows, Credits, Height.GTE, Hop.Valid, PacketsOk, CoinOf, ReceivedPath, ReceiveError, CommitmentShown, OnlyEnd;
    ReceivesCredits(n.chains[c], d, p, ack);
    InvAt(n, f);
    InvAt(n, End(c, p.dest));
    AfterReceiveParts(n, c, d, p, ack, e);
    InvWired(n, f);
    InvWired(n, n.peers[f]);
    EndStays(n, c, d, p.dest, f);
    EndStays(n, c, d, p.dest, n.peers[f]);
    var m := AfterReceive(n, c, d, p, ack, e);
    assert OnlyChain(n, m, c);
    OtherChannelStays(n, m, c, f);
  }

  lemma RecvEnds(n: Net, c: string, d: Chain, p: Packet, ack: Ack, e: End, f: End)
    requires Arrives(n, c, d, p, ack, e) && f in n.peers
    ensures var m := n.WithChain(c, d);
            && n.WiredEnd(f) && m.WiredEnd(f)
            && m.At(f).commitments == n.At(f).commitments && (f != End(c, p.dest) ==> m.At(f).acks == n.At(f).acks)
  {
    hide Inv, Net.Wired, ChainOk, Packets.Grows, ReceiveError, CommitmentShown, OnlyEnd, Credits, OnlyChain, Net.Complete, Net.Named;
    InvWired(n, f);
    EndStays(n, c, d, p.dest, f);
  }

  lemma InvWired(n: Net, f: End)
    requires Inv(n) && f in n.peers
    ensures n.WiredEnd(f)
  {
    hide ChainOk, ChannelOk, Backed, Unminted, Unmintable, Net.Complete, Net.Named, Net.WiredEnd, LosesSlash;
  }

  lemma RecvInFlight(n: Net, c: string, d: Chain, p: Packet, ack: Ack, e: End, x: string)
    requires Arrives(n, c, d, p, ack, e)
    ensures var m := n.WithChain(c, d);
            && m.Wired() && e in m.peers && n.Wired() && e in n.peers && p.payload.Ics20?
            && InFlight(n, e, x) == InFlight(m, e, x) + When(ack.ResultAck? && x == p.payload.data.denom, Amount(CommitPacket(p)))
  {
    hide Inv, Net.Wired, ChainOk, Packets.Grows, Height.GTE, Hop.Valid, ReceiveError, CommitmentShown, OnlyEnd, Credits, LosesSlash, HasPrefix;
    ArrivalIsCommitted(n, c, d, p, ack, e);
    var m, g := n.WithChain(c, d), End(c, p.dest);
    RecvEnds(n, c, d, p, ack, e, e);
    RecvEnds(n, c, d, p, ack, e, g);
    OwingAck(n.At(e).commitments, n.At(g).acks, x, p.sequence, ack);
    hide Owing, Total;
  }

  lemma RecvStores(n: Net, c: string, d: Chain, p: Packet, ack: Ack, e: End, m: Net)
    requires Arrives(n, c, d, p, ack, e) && m.peers == n.peers && m.chains == n.WithChain(c, d).chains && m.Wired() && n.Wired()
    ensures OnlyAcks(n, m, End(c, p.dest))
  {
    hide Arrives, Net.Wired;
    forall f | f in n.peers
      ensures m.WiredEnd(f) && n.WiredEnd(f) && m.At(f).commitments == n.At(f).commitments
              && (f != End(c, p.dest) ==> m.At(f).acks == n.At(f).acks)
    {
      RecvEnds(n, c, d, p, ack, e, f);
    }
    hide Net.WiredEnd;
  }

  lemma InFlightSame(n: Net, m: Net, e: End, x: string)
    requires n.Wired() && m.Wired() && n.peers == m.peers && n.chains == m.chains && e in n.peers
    ensures InFlight(n, e, x) == InFlight(m, e, x)
  {
  }

  /** A success acknowledgement delivers the packet's amount, an error acknowledgement nothing. */
  lemma RecvDelivers(n: Net, c: string, d: Chain, p: Packet, ack: Ack, e: End)
    requires Arrives(n, c, d, p, ack, e)
    ensures var m := AfterReceive(n, c, d, p, ack, e);
            if ack.ResultAck? then
              p.payload.Ics20? && p.payload.data.receiver.Bech32? && p.payload.data.amount >= 0
              && Delivers(n, m, e, p.payload.data.denom, p.payload.data.amount, p.payload.data.receiver.address)
            else Delivers(n, m, e, "x", 0, User(""))
  {
    hide Inv, Net.Wired, ChainOk, Packets.Grows, Height.GTE, Hop.Valid, CoinOf, ReceiveError, CommitmentShown, OnlyEnd, LosesSlash, Pays, Bank.Conserved, TracesGrow, InFlight, HasPrefix, ReceivedPath;
    ReceivesCredits(n.chains[c], d, p, ack);
    ArrivalIsCommitted(n, c, d, p, ack, e);
    AfterReceiveParts(n, c, d, p, ack, e);
    var m, k := AfterReceive(n, c, d, p, ack, e), n.WithChain(c, d);
    hide AfterReceive;
    RecvStores(n, c, d, p, ack, e, m);
    hide OnlyAcks;
    var q, amount := if ack.ResultAck? then p.payload.data.denom else "x", if ack.ResultAck? then p.payload.data.amount else 0;
    forall x
      ensures InFlight(n, e, x) == InFlight(m, e, x) + When(x == q, amount)
    {
      RecvInFlight(n, c, d, p, ack, e, x);
      InFlightSame(k, m, e, x);
    }
    if ack.ErrorAck? {
      NothingDelivered(n.chains[c].bank, e.id, p.dest);
    }
  }

  lemma NothingDelivered(b: Bank, source: Hop, dest: Hop)
    requires dest.Valid()
    ensures !LosesSlash("x") && !LosesSlash(ReceivedPath(source, dest, "x")) && Pays(b, b, source, dest, "x", 0, User(""))
  {
    hide CoinOf, Bank.Balance, Bank.Supply, Hop.Valid;
    PrefixedKeepsSlash(dest, "x");
    assert |source.Prefix()| >= 2;
    assert forall c :: When(c, 0) == 0;
  }

  lemma RecvKeepsInv(n: Net, c: string, d: Chain, p: Packet, ack: Ack)
    requires Inv(n) && c in n.chains && Receives(n.chains[c], d, p, ack) && p.dest.Valid()
    requires n.Wired() && End(c, p.dest) in n.peers && CommitmentShown(n, p, End(c, p.dest))
    ensures Inv(AfterReceive(n, c, d, p, ack, n.peers[End(c, p.dest)]))
  {
    hide Inv, Receives, ChainOk, ChannelOk, Backed, Unminted, Unmintable, Packets.Grows, Net.Complete, Net.Named, OnlyEnd, Net.Wired, LosesSlash, CommitmentShown, Hop.Valid;
    ReceivesCredits(n.chains[c], d, p, ack);
    InvParts(n, c);
    var e := n.peers[End(c, p.dest)];
    RecvKeepsChain(n.chains[c], d, p, ack);
    WiringStays(n, c, d, p.dest);
    assert Arrives(n, c, d, p, ack, e);
    AfterReceiveParts(n, c, d, p, ack, e);
    AfterReceiveNames(n, c, d, p, ack, e);
    RecvKeepsOwnChannel(n, c, d, p, ack, e);
    RecvDelivers(n, c, d, p, ack, e);
    var m := AfterReceive(n, c, d, p, ack, e);
    hide Delivers, AfterReceive;
    forall f | f in n.peers && f != e
      ensures ChannelOk(m, f)
    {
      OtherChannelAfterRecv(n, c, d, p, ack, e, f);
    }
    forall f, x | f in n.peers && !LosesSlash(x)
      ensures Backed(m, f, x)
    {
      InvBacked(n, f, x);
      if ack.ResultAck? {
        DeliveryKeepsSheet(n, m, e, p.payload.data.denom, p.payload.data.amount, p.payload.data.receiver.address, f, x);
      } else {
        DeliveryKeepsSheet(n, m, e, "x", 0, User(""), f, x);
      }
    }
    ArrivalIsNoReservedWord(n, c, d, p, ack, e);
    forall f, x | f in n.peers && Unmintable(f.id, x)
      ensures Unminted(m, f, x)
    {
      InvUnminted(n, f, x);
      if ack.ResultAck? {
        DeliveryKeepsUnminted(n, m, e, p.payload.data.denom, p.payload.data.amount, p.payload.data.receiver.address, f, x);
      } else {
        DeliveryKeepsUnminted(n, m, e, "x", 0, User(""), f, x);
      }
    }
    InvFrom(n, m, c);
  }

  lemma AfterReceiveNames(n: Net, c: string, d: Chain, p: Packet, ack: Ack, e: End)
    requires ack.ResultAck? ==> p.payload.Ics20? && p.payload.data.receiver.Bech32? && p.payload.data.amount >= 0
    ensures n.WithChain(c, d).Complete() ==> AfterReceive(n, c, d, p, ack, e).Complete()
    ensures n.WithChain(c, d).Named() ==> AfterReceive(n, c, d, p, ack, e).Named()
  {
    hide CoinOf, ReceivedPath, Hop.Valid;
  }

  // ---------------------------------------------------------------- settling

  function AfterSettle(n: Net, c: string, d: Chain, p: Packet, refunded: bool): Net {
    var m := n.WithChain(c, d);
    if refunded then m.Logged(Refunded(End(c, p.source), p.sequence)) else m
  }

  /** A commitment is removed because its packet was acknowledged or can no longer be received. */
  ghost predicate Concludes(n: Net, c: string, d: Chain, p: Packet, refunded: bool) {
    && Inv(n) && n.Wired() && c in n.chains && Settles(n.chains[c], d, p, refunded)
    && var e := End(c, p.source);
    && e in n.peers && n.WiredEnd(e) && n.WiredEnd(n.peers[e])
    && var r, cr := n.At(n.peers[e]), n.chains[n.peers[e].chain];
    && (p.sequence in r.acks || Expired(cr, r, CommitPacket(p)))
    && (refunded <==> !Delivered(r, p.sequence))
  }

  lemma ConcludedIsHonest(n: Net, c: string, d: Chain, p: Packet, refunded: bool)
    requires Concludes(n, c, d, p, refunded)
    ensures ChainOk(n.chains[c]) && p.source.Valid()
    ensures var s := n.At(End(c, p.source)); p.sequence in s.history && s.history[p.sequence] == CommitPacket(p)
    ensures HonestPayload(n.chains[c], p.source, p.payload)
  {
    hide Inv, Net.Wired, ChainOk, Packets.Grows, HonestPayload, Height.GTE, Hop.Valid, Expired, Locks, Bank.Conserved;
    InvAt(n, End(c, p.source));
  }

  lemma SettleKeepsChain(c: Chain, d: Chain, p: Packet, refunded: bool)
    requires ChainOk(c) && Settles(c, d, p, refunded) && p.source.Valid() && HonestPayload(c, p.source, p.payload)
    ensures ChainOk(d) && OnlyEnd(c, d, p.source) && Packets.Grows(c, d)
  {
    assert c.bank.Conserved();
    hide ChainOk, LedgerOk, Hop.Valid, Locks, Bank.Conserved, LosesSlash;
    ChainHasLedger(c);
    if refunded {
      var data := p.payload.data;
      UnlockKeepsLedger(c.bank, d.bank, c.traces, p.source, data.denom, data.amount, c.DecodeAddress(data.sender).value);
    }
    ChainFrom(c, d);
    GrowsReflexive(c, d);
  }

  lemma AfterSettleParts(n: Net, c: string, d: Chain, p: Packet, refunded: bool)
    ensures var m, k := AfterSettle(n, c, d, p, refunded), n.WithChain(c, d);
            && m.peers == n.peers && m.chains == k.chains && m.gifts == n.gifts
            && m.log == (if refunded then n.log + multiset{Refunded(End(c, p.source), p.sequence)} else n.log)
            && (k.Wired() ==> m.Wired()) && (k.Named() ==> m.Named()) && (k.Complete() ==> m.Complete())
  {
    hide Hop.Valid;
  }

  lemma SettleKeepsOwnChannel(n: Net, c: string, d: Chain, p: Packet, refunded: bool)
    requires Concludes(n, c, d, p, refunded) && OnlyChain(n, n.WithChain(c, d), c) && OnlyEnd(n.chains[c], d, p.source)
    requires Packets.Grows(n.chains[c], d)
    ensures var m := AfterSettle(n, c, d, p, refunded); m.Wired() && End(c, p.source) in m.peers && ChannelOk(m, End(c, p.source))
  {
    hide Inv, Net.Wired, ChainOk, Packets.Grows, HonestPayload, Height.GTE, Hop.Valid, Expired, Locks, Bank.Conserved, PacketsOk, OnlyEnd;
    ConcludedIsHonest(n, c, d, p, refunded);
    AfterSettleParts(n, c, d, p, refunded);
    var m, e := AfterSettle(n, c, d, p, refunded), End(c, p.source);
    var g := n.peers[e];
    InvAt(n, e);
    EndStays(n, c, d, p.source, g);
    EndStays(n, c, d, p.source, e);
    var t := n.At(e).(commitments := n.At(e).commitments - {p.sequence});
    assert m.At(e) == t && m.At(g) == n.At(g);
    Packets.Remove(n.At(e), n.At(g), n.chains[c], n.chains[g.chain], e, n.log, p.sequence, refunded, t);
    Packets.SurroundingsChange(t, n.At(g), n.chains[c], n.chains[g.chain], m.log, e,
                               m.At(e), m.At(g), m.chains[c], m.chains[g.chain], m.log);
  }

  lemma OtherChannelAfterSettle(n: Net, c: string, d: Chain, p: Packet, refunded: bool, f: End)
    requires Concludes(n, c, d, p, refunded) && OnlyChain(n, n.WithChain(c, d), c) && OnlyEnd(n.chains[c], d, p.source)
    requires Packets.Grows(n.chains[c], d) && f in n.peers && f != End(c, p.source)
    ensures var m := AfterSettle(n, c, d, p, refunded); m.Wired() && f in m.peers && ChannelOk(m, f)
  {
    hide Inv, Net.Wired, ChainOk, Packets.Grows, Height.GTE, Hop.Valid, PacketsOk, Expired, Delivered, OnlyEnd, Locks, Bank.Conserved;
    InvAt(n, f);
    AfterSettleParts(n, c, d, p, refunded);
    InvWired(n, f);
    InvWired(n, n.peers[f]);
    EndStays(n, c, d, p.source, f);
    EndStays(n, c, d, p.source, n.peers[f]);
    var m := AfterSettle(n, c, d, p, refunded);
    assert OnlyChain(n, m, c);
    OtherChannelStays(n, m, c, f);
  }

  lemma SettleEnds(n: Net, c: string, d: Chain, p: Packet, refunded: bool, f: End)
    requires Concludes(n, c, d, p, refunded) && OnlyEnd(n.chains[c], d, p.source) && f in n.peers
    ensures var m := n.WithChain(c, d);
            && n.WiredEnd(f) && m.WiredEnd(f)
            && m.At(f).acks == n.At(f).acks && (f != End(c, p.source) ==> m.At(f).commitments == n.At(f).commitments)
  {
    hide Inv, Net.Wired, OnlyEnd, Expired, Delivered, Locks, Bank.Conserved;
    InvWired(n, f);
    EndStays(n, c, d, p.source, f);
  }

  lemma SettleInFlight(n: Net, c: string, d: Chain, p: Packet, refunded: bool, x: string)
    requires Concludes(n, c, d, p, refunded) && OnlyEnd(n.chains[c], d, p.source) && OnlyChain(n, n.WithChain(c, d), c)
    ensures var m, e := n.WithChain(c, d), End(c, p.source);
            && m.Wired() && e in m.peers && e in n.peers && p.payload.Ics20?
            && InFlight(n, e, x) == InFlight(m, e, x) + When(refunded && x == p.payload.data.denom, Amount(CommitPacket(p)))
  {
    hide Inv, Net.Wired, ChainOk, Hop.Valid, Expired, OnlyEnd, Locks, Bank.Conserved, LosesSlash, HasPrefix;
    ConcludedIsHonest(n, c, d, p, refunded);
    var e := End(c, p.source);
    SettleEnds(n, c, d, p, refunded, e);
    SettleEnds(n, c, d, p, refunded, n.peers[e]);
    OwingRemove(n.At(e).commitments, n.At(n.peers[e]).acks, x, p.sequence);
    hide Owing, Total;
  }

  lemma SettleStores(n: Net, c: string, d: Chain, p: Packet, refunded: bool, m: Net)
    requires Concludes(n, c, d, p, refunded) && OnlyEnd(n.chains[c], d, p.source)
    requires m.peers == n.peers && m.chains == n.WithChain(c, d).chains && m.Wired() && n.Wired()
    ensures OnlyCommitments(n, m, End(c, p.source)) && OnlyCommitments(m, n, End(c, p.source))
  {
    hide Concludes, Net.Wired, OnlyEnd;
    forall f | f in n.peers
      ensures n.WiredEnd(f) && m.WiredEnd(f)
              && m.At(f).acks == n.At(f).acks && (f != End(c, p.source) ==> m.At(f).commitments == n.At(f).commitments)
    {
      SettleEnds(n, c, d, p, refunded, f);
    }
    hide Net.WiredEnd;
  }

  /** What a settlement does to the bank, in the terms of `Commits`. */
  lemma SettleLocks(n: Net, c: string, d: Chain, p: Packet, refunded: bool)
    requires Concludes(n, c, d, p, refunded)
    ensures n.Wired() && c in n.chains && End(c, p.source) in n.peers && Inv(n)
    ensures refunded ==> p.payload.Ics20? && p.payload.data.amount >= 0 && p.payload.data.sender.Bech32?
                         && p.payload.data.sender.address.User? && !LosesSlash(p.payload.data.denom)
                         && Amount(CommitPacket(p)) == p.payload.data.amount
                         && Locks(d.bank, n.chains[c].bank, p.source, p.payload.data.denom, p.payload.data.amount, p.payload.data.sender.address)
    ensures !refunded ==> d.bank == n.chains[c].bank
  {
    hide Inv, Net.Wired, ChainOk, Hop.Valid, Expired, Locks, Bank.Conserved, LosesSlash, HasPrefix, Delivered;
    ConcludedIsHonest(n, c, d, p, refunded);
  }

  /** A refund is a send in reverse; a success acknowledgement moves nothing. */
  lemma SettleCommits(n: Net, c: string, d: Chain, p: Packet, refunded: bool)
    requires Concludes(n, c, d, p, refunded) && OnlyEnd(n.chains[c], d, p.source) && OnlyChain(n, n.WithChain(c, d), c)
    ensures var m, e := AfterSettle(n, c, d, p, refunded), End(c, p.source);
            if refunded then
              p.payload.Ics20? && p.payload.data.amount >= 0 && p.payload.data.sender.Bech32?
              && Commits(m, n, e, p.payload.data.denom, p.payload.data.amount, p.payload.data.sender.address)
            else Commits(n, m, e, "x", 0, User(""))
  {
    hide Concludes, Inv, Net.Wired, OnlyEnd, Locks, LosesSlash, InFlight;
    SettleLocks(n, c, d, p, refunded);
    AfterSettleParts(n, c, d, p, refunded);
    var m, k, e := AfterSettle(n, c, d, p, refunded), n.WithChain(c, d), End(c, p.source);
    hide AfterSettle;
    SettleStores(n, c, d, p, refunded, m);
    hide OnlyCommitments;
    forall x
      ensures m.Wired() && InFlight(n, e, x) == InFlight(m, e, x) + When(refunded && x == p.payload.data.denom, Amount(CommitPacket(p)))
    {
      SettleInFlight(n, c, d, p, refunded, x);
      InFlightSame(k, m, e, x);
    }
    NothingLocked(n.chains[c].bank, p.source);
  }

  lemma NothingLocked(b: Bank, source: Hop)
    ensures !LosesSlash("x") && Locks(b, b, source, "x", 0, User(""))
  {
    hide CoinOf, Bank.Balance, Bank.Supply;
    assert forall c :: When(c, 0) == 0;
  }

  lemma SettleKeepsInv(n: Net, c: string, d: Chain, p: Packet, refunded: bool)
    requires Concludes(n, c, d, p, refunded)
    ensures Inv(AfterSettle(n, c, d, p, refunded))
  {
    assert Inv(n) && n.Wired() && c in n.chains && Settles(n.chains[c], d, p, refunded) && End(c, p.source) in n.peers by {
      hide Inv, Net.Wired, Settles, Expired, Delivered, Net.WiredEnd;
    }
    hide Concludes, Inv, Settles, ChainOk, ChannelOk, Backed, Unminted, Unmintable, Packets.Grows, Net.Complete, Net.Named, OnlyEnd, Net.Wired, LosesSlash, Hop.Valid, HonestPayload, Commits;
    InvParts(n, c);
    ConcludedIsHonest(n, c, d, p, refunded);
    SettleKeepsChain(n.chains[c], d, p, refunded);
    WiringStays(n, c, d, p.source);
    AfterSettleParts(n, c, d, p, refunded);
    SettleKeepsOwnChannel(n, c, d, p, refunded);
    SettleCommits(n, c, d, p, refunded);
    var m, e := AfterSettle(n, c, d, p, refunded), End(c, p.source);
    hide AfterSettle;
    forall f | f in n.peers && f != e
      ensures ChannelOk(m, f)
    {
      OtherChannelAfterSettle(n, c, d, p, refunded, f);
    }
    forall f, x | f in n.peers && !LosesSlash(x)
      ensures Backed(m, f, x)
    {
      InvBacked(n, f, x);
      if refunded {
        CommitKeepsSheet(m, n, e, p.payload.data.denom, p.payload.data.amount, p.payload.data.sender.address, f, x);
      } else {
        CommitKeepsSheet(n, m, e, "x", 0, User(""), f, x);
      }
    }
    forall f, x | f in n.peers && Unmintable(f.id, x)
      ensures Unminted(m, f, x)
    {
      InvUnminted(n, f, x);
      if refunded {
        CommitKeepsUnminted(m, n, e, p.payload.data.denom, p.payload.data.amount, p.payload.data.sender.address, f, x);
      } else {
        CommitKeepsUnminted(n, m, e, "x", 0, User(""), f, x);
      }
    }
    InvFrom(n, m, c);
  }
}
