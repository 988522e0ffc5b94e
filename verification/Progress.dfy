/** What relayers can always achieve: in every reachable state, the right message settles a packet. */
module Progress {
  import opened Strings
  import opened Denoms
  import opened HopStack
  import opened Heights
  import opened Totals
  import opened Banking
  import opened Chains
  import opened Network
  import opened BalanceSheet
  import opened Safety
  import opened Runs
  import opened Guarantees
  import opened Acceptance
  import Packets

  // ---------------------------------------------------------------- reachability of the next state

  lemma {:induction false} RunThen(n: Net, steps: seq<Step>, s: Step)
    requires Inv(n)
    ensures Run(n, steps).Wired() && Run(n, steps + [s]) == Apply(Run(n, steps), s)
    decreases |steps|
  {
    hide Inv, Apply, Net.Wired;
    StepKeepsInv(Run(n, steps), s);
    if steps == [] {
      assert [] + [s] == [s] && [s][1..] == [];
      StepKeepsInv(n, s);
      assert Run(Apply(n, s), []) == Apply(n, s);
    } else {
      StepKeepsInv(n, steps[0]);
      RunThen(Apply(n, steps[0]), steps[1..], s);
      assert (steps + [s])[1..] == steps[1..] + [s];
    }
  }

  lemma ReachableStays(n: Net, s: Step)
    requires Reachable(n)
    ensures n.Wired() && Reachable(Apply(n, s))
  {
    hide Inv, Apply, Genesis, Net.Wired;
    var n0, steps :| Genesis(n0) && Inv(n0) && n == Run(n0, steps);
    RunThen(n0, steps, s);
    assert Apply(n, s) == Run(n0, steps + [s]);
  }

  // ---------------------------------------------------------------- refunds

  /** Between `n` and `m` the packet was paid back: its sender has the amount again, the commitment is
      gone, and the refund was the first and only payment for the packet. */
  ghost predicate PaysBack(n: Net, m: Net, c: string, p: Packet) {
    && c in n.chains && c in m.chains && p.source in m.chains[c].channels
    && p.sequence !in m.chains[c].channels[p.source].commitments
    && p.payload.Ics20? && p.payload.data.amount > 0 && p.payload.data.sender.Bech32?
    && var who, d := p.payload.data.sender.address, CoinOf(p.payload.data.denom);
    && m.chains[c].bank.Balance(who, d) == n.chains[c].bank.Balance(who, d) + p.payload.data.amount
    && var e := End(c, p.source);
    && n.log[Refunded(e, p.sequence)] == 0 && m.log[Refunded(e, p.sequence)] == 1 && m.log[Credited(e, p.sequence)] == 0
  }

  lemma SettledPaysBack(n: Net, s: Step, p: Packet, d: Chain)
    requires Reachable(n) && n.Wired() && s.chain in n.chains && End(s.chain, p.source) in n.peers
    requires Settles(n.chains[s.chain], d, p, true)
    requires Apply(n, s) == n.WithChain(s.chain, d).Logged(Refunded(End(s.chain, p.source), p.sequence))
    ensures PaysBack(n, Apply(n, s), s.chain, p)
  {
    hide Reachable, Inv, Net.Wired, ChainOk, Packets.Grows, Expired, Bank.Balance, Bank.Supply, Bank.Conserved, CoinOf, LosesSlash, HasPrefix, Apply, InFlight, PacketsOk;
    ReachableHasInv(n);
    var e, m := End(s.chain, p.source), Apply(n, s);
    InvAt(n, e);
    InvWired(n, e);
    ReachableStays(n, s);
    ReachableHasInv(m);
    InvAt(m, e);
    InvWired(m, e);
    EachPacketSettlesOnce(n, e, p.sequence);
    EachPacketSettlesOnce(m, e, p.sequence);
    CommitmentIsHonest(n, e, p.sequence);
    CommitmentIsHistory(n, e, p.sequence);
  }

  /** A waiting packet whose timeout had been reached at a block of the other chain that did not have
      its receipt is paid back by a timeout with a proof at that block. */
  lemma TimedOutIsPaidBack(n: Net, c: string, p: Packet, h: Height)
    requires Reachable(n) && n.Wired() && c in n.chains && End(c, p.source) in n.peers
    requires Waiting(n.chains[c], p) && Open(n.chains[c], p) && AbsenceShown(n, p, h, End(c, p.source))
    requires Reached(p, h, n.chains[n.peers[End(c, p.source)].chain].blockTimes[h])
    ensures PaysBack(n, Apply(n, Step.Timeout(c, p, h)), c, p)
  {
    hide Reachable, Inv, Net.Wired, RefundPacketToken, TimeoutPacket, PaysBack, Settles, Reached, Open;
    var e, a := End(c, p.source), n.chains[c];
    TimeoutIff(a, p, h, ProofTime(n, h, e), AbsenceShown(n, p, h, e));
    TimeoutVerifiesInPlace(a, p, h, ProofTime(n, h, e), AbsenceShown(n, p, h, e));
    RefundsNeverFail(n, c, p, ResultAck, h);
    assert a.channels[p.source].commitments[p.sequence] == CommitPacket(p);
    TimeoutSettles(a, p);
    SettledPaysBack(n, Step.Timeout(c, p, h), p, ApplyTimeout(n, c, p, h).chain);
  }

  /** So is a waiting packet whose other end had closed at such a block, even if this end is closed. */
  lemma ClosedIsPaidBack(n: Net, c: string, p: Packet, h: Height)
    requires Reachable(n) && n.Wired() && c in n.chains && End(c, p.source) in n.peers
    requires Waiting(n.chains[c], p) && CloseShown(n, h, End(c, p.source)) && AbsenceShown(n, p, h, End(c, p.source))
    ensures PaysBack(n, Apply(n, Step.TimeoutOnClose(c, p, h)), c, p)
  {
    hide Reachable, Inv, Net.Wired, RefundPacketToken, TimeoutOnClosePacket, PaysBack, Settles;
    var e, a := End(c, p.source), n.chains[c];
    TimeoutOnCloseIff(a, p, CloseShown(n, h, e), AbsenceShown(n, p, h, e));
    TimeoutOnCloseVerifiesInPlace(a, p, CloseShown(n, h, e), AbsenceShown(n, p, h, e));
    RefundsNeverFail(n, c, p, ResultAck, h);
    assert a.channels[p.source].commitments[p.sequence] == CommitPacket(p);
    TimeoutSettles(a, p);
    SettledPaysBack(n, Step.TimeoutOnClose(c, p, h), p, ApplyTimeoutOnClose(n, c, p, h).chain);
  }

  /** A waiting packet that the other end refused is paid back by relaying the acknowledgement. */
  lemma RefusedIsPaidBack(n: Net, c: string, p: Packet, ack: Ack)
    requires Reachable(n) && n.Wired() && c in n.chains && End(c, p.source) in n.peers
    requires Waiting(n.chains[c], p) && Open(n.chains[c], p) && ack.ErrorAck? && AckShown(n, p, ack, End(c, p.source))
    ensures PaysBack(n, Apply(n, Step.Acknowledge(c, p, ack)), c, p)
  {
    hide Reachable, Inv, Net.Wired, RefundPacketToken, AcknowledgePacket, PaysBack, Settles, Waiting, Open;
    var e, a := End(c, p.source), n.chains[c];
    AcknowledgeIff(a, p, true);
    RefundsNeverFail(n, c, p, ack, Height(0, 0));
    AcknowledgementSettles(a, p, ack, true);
    hide AcknowledgementMsg;
    SettledPaysBack(n, Step.Acknowledge(c, p, ack), p, AcknowledgementMsg(a, p, ack, true).chain);
  }

  // ---------------------------------------------------------------- receives

  /** A committed packet that arrives in time for the first time is always answered: with a success
      acknowledgement, and a payment that is counted, exactly if it is payable. */
  lemma TimelyIsAnswered(n: Net, c: string, p: Packet)
    requires Reachable(n) && n.Wired() && c in n.chains && End(c, p.dest) in n.peers && CommitmentShown(n, p, End(c, p.dest))
    requires Receivable(n.chains[c], p) && p.sequence !in n.chains[c].channels[p.dest].receipts
    ensures var m, e := Apply(n, Recv(c, p)), n.peers[End(c, p.dest)];
            && c in m.chains && p.dest in m.chains[c].channels
            && p.sequence in m.chains[c].channels[p.dest].receipts && p.sequence in m.chains[c].channels[p.dest].acks
            && (m.chains[c].channels[p.dest].acks[p.sequence].ResultAck? <==> Payable(n.chains[c], p))
            && n.log[Credited(e, p.sequence)] == 0
            && m.log[Credited(e, p.sequence)] == When(Payable(n.chains[c], p), 1)
  {
    hide Reachable, Inv, Net.Wired, ChainOk, Packets.Grows, PacketsOk, RecvPacketMsg, CommitmentShown, Hop.Valid, CoinOf, Apply, Payable, HonestPayload, Height.GTE, InFlight;
    ReachableHasInv(n);
    var g, a := End(c, p.dest), n.chains[c];
    InvAt(n, g);
    InvWired(n, g);
    var e := n.peers[g];
    InvAt(n, e);
    InvWired(n, e);
    NotAcknowledged(n, e, p.sequence);
    ReceiveIff(a, p, true);
    RecvPacketReceives(a, p, true);
    RecvChain(n, c, p);
    ReachableStays(n, Recv(c, p));
    var m := Apply(n, Recv(c, p));
    ReachableHasInv(m);
    InvAt(m, g);
    InvWired(m, g);
    InvAt(m, e);
    InvWired(m, e);
    CreditedMeansDelivered(n, e, p.sequence);
    CreditedMeansDelivered(m, e, p.sequence);
    hide Credits, ReceiveError;
  }

  lemma NotAcknowledged(n: Net, e: End, k: nat)
    requires Inv(n) && n.Wired() && e in n.peers && n.WiredEnd(e) && n.WiredEnd(n.peers[e]) && k !in n.At(n.peers[e]).receipts
    ensures k !in n.At(n.peers[e]).acks
  {
    hide Inv, Net.Wired, ChainOk, Packets.Grows, HonestPayload, Expired, Timely, Height.GTE;
    InvAt(n, e);
    assert StoresAgree(n.At(e), n.At(n.peers[e]));
  }

  lemma CreditedMeansDelivered(n: Net, e: End, k: nat)
    requires Inv(n) && n.Wired() && e in n.peers && n.WiredEnd(e) && n.WiredEnd(n.peers[e])
    ensures n.log[Credited(e, k)] == When(Delivered(n.At(n.peers[e]), k), 1)
  {
    hide Inv, Net.Wired, ChainOk, Packets.Grows, HonestPayload, Expired, Timely, Height.GTE;
    InvAt(n, e);
  }

  lemma RecvChain(n: Net, c: string, p: Packet)
    requires n.Wired() && c in n.chains && CommitmentShown(n, p, End(c, p.dest)) && RecvPacketMsg(n.chains[c], p, true).Executed?
    ensures var m := Apply(n, Recv(c, p)); m.peers == n.peers && m.chains == n.chains[c := RecvPacketMsg(n.chains[c], p, true).chain]
  {
    hide Net.Wired, RecvPacketMsg, CoinOf, CommitmentShown;
  }

  /** The escrow behind a channel end holds the coins of every packet that arrives to collect them. */
  lemma EscrowHolds(n: Net, c: string, p: Packet)
    requires Reachable(n) && n.Wired() && c in n.chains && End(c, p.dest) in n.peers && CommitmentShown(n, p, End(c, p.dest))
    requires Receivable(n.chains[c], p) && p.sequence !in n.chains[c].channels[p.dest].receipts
    requires p.payload.Ics20? && ValidPrefixedDenom(p.payload.data.denom) && HasPrefix(p.payload.data.denom, p.source.Prefix())
    ensures p.payload.data.amount <= n.chains[c].bank.Balance(Escrow(p.dest), CoinOf(p.payload.data.denom[|p.source.Prefix()|..]))
  {
    hide Reachable, Inv, Net.Wired, ChainOk, Packets.Grows, CoinOf, LosesSlash, ValidPrefixedDenom, Hop.Valid, Hop.Prefix, HonestPayload, ReceiveError, Earlier, Bank.Balance;
    ReachableHasInv(n);
    var g := End(c, p.dest);
    InvAt(n, g);
    var e := n.peers[g];
    InvAt(n, e);
    ReceivableExactly(n.chains[c], p);
    Packets.AcceptedIsCommitted(n.At(e), n.At(g), n.chains[e.chain], n.chains[c], e, n.log, p);
    var q := p.payload.data.denom;
    var u := q[|p.source.Prefix()|..];
    ValidatedSuffixKeepsSlash(p.source, q);
    PrefixSplits(p.source, q);
    InvBacked(n, g, u);
    OwingCovers(n.At(e).commitments, n.At(g).acks, q, p.sequence);
    hide Owing, Total, Circulating;
  }

  /** So between honest chains escrow never decides: a packet that arrives in time for the first time is
      credited exactly if receiving is enabled, its data is well formed, the receiver is of this chain,
      and a receiver of new vouchers is not blocked. */
  lemma EscrowNeverDecides(n: Net, c: string, p: Packet)
    requires Reachable(n) && n.Wired() && c in n.chains && End(c, p.dest) in n.peers && CommitmentShown(n, p, End(c, p.dest))
    requires Receivable(n.chains[c], p) && p.sequence !in n.chains[c].channels[p.dest].receipts
    ensures Payable(n.chains[c], p) <==>
            && p.payload.Ics20? && n.chains[c].receiveEnabled
            && var data := p.payload.data;
            && data.amount > 0 && Filled(data.sender) && Filled(data.receiver) && ValidPrefixedDenom(data.denom)
            && Decodes(n.chains[c], data.receiver)
            && (HasPrefix(data.denom, p.source.Prefix()) || data.receiver.address !in n.chains[c].blocked)
  {
    hide Reachable, Inv, Net.Wired, CoinOf, ValidPrefixedDenom, Hop.Prefix, CommitmentShown, Receivable, Bank.Balance;
    if p.payload.Ics20? && ValidPrefixedDenom(p.payload.data.denom) && HasPrefix(p.payload.data.denom, p.source.Prefix()) {
      EscrowHolds(n, c, p);
    }
  }
}
