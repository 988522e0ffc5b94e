/** What the protocol promises in every state of every run from genesis. */
module Guarantees {
  import opened Basics
  import opened Strings
  import opened Identifiers
  import opened Denoms
  import opened HopStack
  import opened Heights
  import opened Totals
  import opened Banking
  import opened Chains
  import opened Network
  import opened BalanceSheet
  import opened Safety
  import opened Runs
  import Packets

  // ---------------------------------------------------------------- genesis and runs

  /** A chain before its first transfer: what its genesis validation and its other modules provide. */
  ghost predicate GenesisChain(c: Chain) {
    && c.bank.Conserved()
    && (forall a, h, k :: c.bank.Balance(a, Ibc(h, Alternate(k))) == 0)
    && (forall h :: h in c.traces ==> c.traces[h].Hash() == h && c.traces[h].Validate() && c.traces[h].path != "")
    && (forall h :: c.bank.Supply(Ibc(h, Canonical)) > 0 ==> h in c.traces)
    && (forall a :: a in c.blocked ==> !a.User?)
    && c.blockTimes.Keys == {c.height}
  }

  ghost predicate FreshEnd(e: ChannelEnd) {
    && e.commitments == map[] && e.history == map[] && e.receipts == map[] && e.acks == map[]
    && e.nextSequenceSend == 1
  }

  /** All chains are at genesis, their channels have carried nothing, no voucher of these channels
      exists, and what escrow addresses already hold counts as a gift. */
  ghost predicate Genesis(n: Net) {
    && n.Wired() && n.Named() && n.Complete()
    && (forall c :: c in n.chains ==> GenesisChain(n.chains[c]))
    && (forall e :: e in n.peers ==> FreshEnd(n.At(e)))
    && (forall e, p :: e in n.peers ==> n.chains[e.chain].bank.Supply(CoinOf(e.id.Prefix() + p)) == 0)
    && (forall e, d :: e in n.peers ==> n.Gift(e.chain, Escrow(e.id), d) == n.chains[e.chain].bank.Balance(Escrow(e.id), d))
    && n.log == multiset{}
  }

  /** A genesis trace that passes validation and has a path is printed and parsed faithfully. */
  lemma ValidTraceIsGood(t: DenomTrace)
    requires t.Validate() && t.path != ""
    ensures GoodTrace(t)
  {
    var parts := Split(t.path, '/');
    JoinInvertsSplit(t.path, '/');
    SplitPartsAreFree(t.path, '/');
    assert ValidPortId(parts[0]);
    assert |parts| >= 2;
    assert t.path[0] == parts[0][0];
    assert t.GetFullDenomPath()[0] == t.path[0];
  }

  lemma GenesisHasInv(n: Net)
    requires Genesis(n)
    ensures Inv(n)
  {
    assert n.Wired() && n.Named() && n.Complete() && forall c :: c in n.chains ==> GenesisChain(n.chains[c]) by {
      hide Net.Complete, Net.Named, Net.WiredEnd, GenesisChain, FreshEnd;
    }
    hide Genesis, Net.Complete, Net.Named, Net.WiredEnd, GenesisChain, ChainOk, ChannelOk, Backed, Unminted, Unmintable, LosesSlash;
    forall c | c in n.chains
      ensures ChainOk(n.chains[c])
    {
      GenesisChainOk(n.chains[c]);
    }
    forall e | e in n.peers
      ensures ChannelOk(n, e)
    {
      GenesisChannelOk(n, e);
    }
    forall e, p | e in n.peers && !LosesSlash(p)
      ensures Backed(n, e, p)
    {
      GenesisBacked(n, e, p);
    }
    forall e, p | e in n.peers && Unmintable(e.id, p)
      ensures Unminted(n, e, p)
    {
      GenesisUnminted(n, e, p);
    }
  }

  lemma GenesisUnminted(n: Net, e: End, p: string)
    requires Genesis(n) && e in n.peers && n.Wired()
    ensures Unminted(n, e, p)
  {
    hide Genesis, Net.Wired, CoinOf, HasPrefix, Hop.Prefix, Circulating, Escrowed;
    GenesisAt(n, e);
    GenesisSheet(n, e, p);
    assert forall x :: Owing(map[], map[], x) == map[];
  }

  lemma GenesisAt(n: Net, e: End)
    requires Genesis(n) && e in n.peers
    ensures n.Wired() && n.WiredEnd(e) && FreshEnd(n.At(e)) && n.log == multiset{}
    ensures n.peers[e] in n.peers && n.WiredEnd(n.peers[e]) && FreshEnd(n.At(n.peers[e]))
  {
    hide Net.Complete, Net.Named, GenesisChain, FreshEnd, CoinOf;
  }

  lemma GenesisChannelOk(n: Net, e: End)
    requires Genesis(n) && e in n.peers && n.Wired()
    ensures ChannelOk(n, e)
  {
    hide Genesis, Net.Wired;
    GenesisAt(n, e);
  }

  lemma GenesisBacked(n: Net, e: End, p: string)
    requires Genesis(n) && e in n.peers && n.Wired()
    ensures Backed(n, e, p)
  {
    hide Genesis, Net.Wired, CoinOf, HasPrefix, Hop.Prefix, Circulating, Escrowed;
    GenesisAt(n, e);
    GenesisSheet(n, e, p);
    assert forall x :: Owing(map[], map[], x) == map[];
  }

  lemma GenesisSheet(n: Net, e: End, p: string)
    requires Genesis(n) && e in n.peers && n.Wired()
    ensures Circulating(n, e, p) == 0 && Escrowed(n, e, p) == n.Gift(e.chain, Escrow(e.id), CoinOf(p))
  {
    hide Net.Complete, Net.Named, Net.Wired, GenesisChain, FreshEnd, CoinOf, Net.Gift, Bank.Balance, Bank.Supply, Hop.Prefix;
    WiredAt(n, e);
  }

  lemma GenesisChainOk(c: Chain)
    requires GenesisChain(c)
    ensures ChainOk(c)
  {
    hide Bank.Conserved, Bank.Balance, Bank.Supply;
    forall h | h in c.traces
      ensures GoodTrace(c.traces[h])
    {
      ValidTraceIsGood(c.traces[h]);
    }
    hide GoodTrace, DenomTrace.Validate;
    assert c.height in c.blockTimes.Keys;
    forall h | h in c.blockTimes
      ensures h == c.height
    {
      assert h in c.blockTimes.Keys;
    }
  }

  /** The state after a run: the steps applied in order. The invariant holds at its end. */
  ghost function Run(n: Net, steps: seq<Step>): (m: Net)
    requires Inv(n)
    ensures Inv(m)
    decreases |steps|
  {
    hide Inv, Apply;
    if steps == [] then n
    else
      StepKeepsInv(n, steps[0]);
      Run(Apply(n, steps[0]), steps[1..])
  }

  ghost predicate Reachable(n: Net) {
    exists n0, steps :: Genesis(n0) && Inv(n0) && n == Run(n0, steps)
  }

  lemma ReachableHasInv(n: Net)
    requires Reachable(n)
    ensures Inv(n)
  {
    hide Inv, Genesis;
  }

  // ---------------------------------------------------------------- backing

  /** In every reachable state, the escrow of every channel end holds, for every path, exactly the
      voucher supply on the other chain plus the packets in flight in both directions plus gifts;
      so it never holds less than is owed, and holds exactly that when nobody gave it anything. */
  lemma EscrowBacksVouchers(n: Net, e: End, p: string)
    requires Reachable(n) && n.Wired() && e in n.peers && !LosesSlash(p) && SenderChainIsSource(e.id, p)
    ensures var owed := Circulating(n, e, p) + InFlight(n, n.peers[e], n.peers[e].id.Prefix() + p) + InFlight(n, e, p);
            && Escrowed(n, e, p) >= owed
            && (Escrowed(n, e, p) == owed <==> n.Gift(e.chain, Escrow(e.id), CoinOf(p)) == 0)
  {
    hide Reachable, Inv, CoinOf, LosesSlash, HasPrefix, InFlight;
    ReachableHasInv(n);
    InvBacked(n, e, p);
  }

  /** In every reachable state: no voucher exists for a path that leaves through the channel end it
      came through, nor for the bare reserved word. */
  lemma NeverMinted(n: Net, e: End, p: string)
    requires Reachable(n) && n.Wired() && e in n.peers && (HasPrefix(p, e.id.Prefix()) || p == DENOM_PREFIX)
    ensures Circulating(n, e, p) == 0
  {
    hide Reachable, Inv, InFlight, Circulating, HasPrefix;
    ReachableHasInv(n);
    InvUnminted(n, e, p);
  }

  // ---------------------------------------------------------------- exactly once

  /** Over every run, each packet ever sent is in exactly one of three situations: waiting, paid
      out once on the receiving chain, or paid back once on the sending chain; a packet never sent
      was never paid. */
  lemma EachPacketSettlesOnce(n: Net, e: End, k: nat)
    requires Reachable(n) && n.Wired() && e in n.peers
    ensures var s, r := n.At(e), n.At(n.peers[e]);
            n.log[Credited(e, k)] + n.log[Refunded(e, k)] + When(k in s.commitments && !Delivered(r, k), 1) == When(k in s.history, 1)
  {
    hide Reachable, Inv, ChainOk, Packets.Grows, HonestPayload, Expired, Timely;
    ReachableHasInv(n);
    InvAt(n, e);
  }

  // ---------------------------------------------------------------- traces

  /** Every stored trace sits under its own hash, has a path, and that path survives parsing and
      printing. */
  lemma StoredTracesAreSound(n: Net, c: string, h: Digest)
    requires Reachable(n) && c in n.chains && h in n.chains[c].traces
    ensures var t := n.chains[c].traces[h];
            && t.Hash() == h && t.path != "" && ParseDenomTrace(t.GetFullDenomPath()).GetFullDenomPath() == t.GetFullDenomPath()
  {
    hide Reachable, Inv, LosesSlash, ParseDenomTrace;
    ReachableHasInv(n);
    InvParts(n, c);
    PrintInvertsParse(n.chains[c].traces[h].GetFullDenomPath());
  }

  /** A circulating voucher always resolves to the path it is the hash of. */
  lemma VouchersResolve(n: Net, c: string, h: Digest)
    requires Reachable(n) && c in n.chains && n.chains[c].bank.Supply(Ibc(h, Canonical)) > 0
    ensures FullDenomPath(n.chains[c], Ibc(h, Canonical)).Ok?
    ensures Sha256(FullDenomPath(n.chains[c], Ibc(h, Canonical)).value) == h
    ensures CoinOf(FullDenomPath(n.chains[c], Ibc(h, Canonical)).value) == Ibc(h, Canonical)
  {
    hide Reachable, Inv, CoinOf, LosesSlash;
    ReachableHasInv(n);
    InvParts(n, c);
    var t := n.chains[c].traces[h];
    var q := t.GetFullDenomPath();
    assert q[|t.path|] == '/';
    CoinOfCases(q);
  }

  // ---------------------------------------------------------------- no shortfall

  lemma OwingCovers(m: map<nat, Commitment>, acks: map<nat, Ack>, p: string, k: nat)
    requires k in m && Carries(m[k], p) && !(k in acks && acks[k].ResultAck?)
    ensures Amount(m[k]) <= Total(Owing(m, acks, p))
  {
    TotalRemove(Owing(m, acks, p), k);
  }

  /** Refunds that reach the application always succeed. */
  lemma RefundSucceeds(n: Net, c: string, c1: Chain, p: Packet)
    requires Inv(n) && n.Wired() && c in n.chains && p.source in n.chains[c].channels && End(c, p.source) in n.peers
    requires c1.bank == n.chains[c].bank && c1.hrp == n.chains[c].hrp && c1.blocked == n.chains[c].blocked
    requires var e := End(c, p.source);
             && n.WiredEnd(e) && n.WiredEnd(n.peers[e])
             && p.sequence in n.At(e).commitments && n.At(e).commitments[p.sequence] == CommitPacket(p)
             && !Delivered(n.At(n.peers[e]), p.sequence)
    ensures p.payload.Ics20? && RefundPacketToken(c1, p, p.payload.data).Ok?
  {
    hide Inv, Net.Wired, CoinOf, LosesSlash, HasPrefix, Packets.Grows, Hop.Valid;
    var e := End(c, p.source);
    InvAt(n, e);
    assert HonestPayload(n.chains[c], p.source, p.payload);
    var data := p.payload.data;
    if SenderChainIsSource(p.source, data.denom) {
      InvBacked(n, e, data.denom);
      OwingCovers(n.At(e).commitments, n.At(n.peers[e]).acks, data.denom, p.sequence);
      hide Owing, Total, Circulating;
    }
  }

  /** In every reachable state: once the channel layer has verified an acknowledgement or a timeout,
      the application callback goes through; the unescrow of a refund never runs short. */
  lemma RefundsNeverFail(n: Net, c: string, p: Packet, ack: Ack, h: Height)
    requires Reachable(n) && n.Wired() && c in n.chains && End(c, p.source) in n.peers
    ensures var shown := AckShown(n, p, ack, End(c, p.source));
            AcknowledgePacket(n.chains[c], p, shown).Verified? ==> AcknowledgementMsg(n.chains[c], p, ack, shown).Executed?
    ensures var e := End(c, p.source);
            TimeoutPacket(n.chains[c], p, h, ProofTime(n, h, e), AbsenceShown(n, p, h, e)).Verified? ==> ApplyTimeout(n, c, p, h).Executed?
    ensures var e := End(c, p.source);
            TimeoutOnClosePacket(n.chains[c], p, CloseShown(n, h, e), AbsenceShown(n, p, h, e)).Verified? ==> ApplyTimeoutOnClose(n, c, p, h).Executed?
  {
    hide Reachable, Inv, Net.Wired, RefundPacketToken, Expired, PacketsOk, ChainOk, Packets.Grows, Height.GTE;
    ReachableHasInv(n);
    var e, a := End(c, p.source), n.chains[c];
    InvAt(n, e);
    InvWired(n, e);
    InvWired(n, n.peers[e]);
    var g := n.peers[e];
    if AcknowledgePacket(a, p, AckShown(n, p, ack, e)).Verified? {
      CommitmentIsHonest(n, e, p.sequence);
      if ack.ErrorAck? {
        RefundSucceeds(n, c, AcknowledgePacket(a, p, true).chain, p);
      }
    }
    if TimeoutPacket(a, p, h, ProofTime(n, h, e), AbsenceShown(n, p, h, e)).Verified? {
      CommitmentIsHistory(n, e, p.sequence);
      Packets.TimeoutExcludesReceipt(n.At(e), n.At(g), a, n.chains[g.chain], e, n.log, p.sequence, h);
      RefundSucceeds(n, c, a, p);
      RefundKeepsChannels(a, p, p.payload.data);
    }
    if TimeoutOnClosePacket(a, p, CloseShown(n, h, e), AbsenceShown(n, p, h, e)).Verified? {
      CommitmentIsHistory(n, e, p.sequence);
      Packets.ClosureExcludesReceipt(n.At(e), n.At(g), a, n.chains[g.chain], e, n.log, p.sequence, h);
      RefundSucceeds(n, c, a, p);
      RefundKeepsChannels(a, p, p.payload.data);
    }
  }

  lemma CommitmentIsHonest(n: Net, e: End, k: nat)
    requires Inv(n) && n.Wired() && e in n.peers && n.WiredEnd(e) && k in n.At(e).commitments
    ensures HonestPayload(n.chains[e.chain], e.id, n.At(e).commitments[k].payload)
  {
    hide Inv, Net.Wired, Net.WiredEnd, ChainOk, Packets.Grows, HonestPayload;
    InvAt(n, e);
  }

  lemma RefundKeepsChannels(c: Chain, p: Packet, data: PacketData)
    requires RefundPacketToken(c, p, data).Ok?
    ensures RefundPacketToken(c, p, data).value.channels == c.channels
  {
  }

  /** In every reachable state, a receive is never refused for lack of funds in escrow. */
  lemma ReceivesNeverRunShort(n: Net, c: string, p: Packet)
    requires Reachable(n) && n.Wired() && c in n.chains && End(c, p.dest) in n.peers
    ensures RecvPacketMsg(n.chains[c], p, CommitmentShown(n, p, End(c, p.dest))) .Executed? ==>
              RecvPacketMsg(n.chains[c], p, CommitmentShown(n, p, End(c, p.dest))).info != ErrorAck(InsufficientFunds)
  {
    hide Reachable, Inv, Net.Wired, ChainOk, Packets.Grows, RecvCallback, CommitmentShown;
    ReachableHasInv(n);
    var a := n.chains[c];
    if ChannelRecvPacket(a, p, CommitmentShown(n, p, End(c, p.dest))).Verified? {
      EscrowCoversArrival(n, c, p, ChannelRecvPacket(a, p, CommitmentShown(n, p, End(c, p.dest))).chain);
    }
  }

  lemma MintAlwaysPays(c: Chain, to: Address, d: Denom, a: nat)
    ensures MintTo(c, to, d, a) != Err(InsufficientFunds)
  {
  }

  lemma EscrowCoversArrival(n: Net, c: string, p: Packet, c1: Chain)
    requires Inv(n) && n.Wired() && c in n.chains && End(c, p.dest) in n.peers && CommitmentShown(n, p, End(c, p.dest))
    requires p.dest in n.chains[c].channels && ReceiveError(n.chains[c], p).None? && p.sequence !in n.chains[c].channels[p.dest].receipts
    requires c1.bank == n.chains[c].bank
    ensures RecvCallback(c1, p).0 != ErrorAck(InsufficientFunds)
  {
    hide Inv, Net.Wired, ChainOk, Packets.Grows, CoinOf, ParseDenomTrace, LosesSlash, ValidPrefixedDenom, Hop.Valid, MintTo, HonestPayload;
    var g := End(c, p.dest);
    InvAt(n, g);
    var e := n.peers[g];
    InvAt(n, e);
    Packets.AcceptedIsCommitted(n.At(e), n.At(g), n.chains[e.chain], n.chains[c], e, n.log, p);
    if p.payload.Ics20? && p.payload.data.ValidBasic() && ReceiverChainIsSource(p.source, p.payload.data.denom) {
      var q := p.payload.data.denom;
      var u := q[|p.source.Prefix()|..];
      ValidatedSuffixKeepsSlash(p.source, q);
      ReturnedCoin(u);
      PrefixSplits(p.source, q);
      InvBacked(n, g, u);
      OwingCovers(n.At(e).commitments, n.At(g).acks, q, p.sequence);
      hide Owing, Total, Circulating;
      assert n.chains[c].bank.Balance(Escrow(p.dest), CoinOf(u)) >= p.payload.data.amount;
    } else if p.payload.Ics20? && c1.DecodeAddress(p.payload.data.receiver).Some? {
      MintAlwaysPays(c1, c1.DecodeAddress(p.payload.data.receiver).value, ParseDenomTrace(p.dest.Prefix() + p.payload.data.denom).IBCDenom(),
                     if p.payload.data.amount >= 0 then p.payload.data.amount else 0);
    }
  }

  lemma ReturnedCoin(u: string)
    requires !LosesSlash(u)
    ensures CoinOf(u) == if ParseDenomTrace(u).path != "" then ParseDenomTrace(u).IBCDenom() else Plain(u)
  {
    hide Split;
    PrintInvertsParse(u);
  }
}
