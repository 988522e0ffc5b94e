/** Exactly when each handler accepts, skips or refuses: conditions on the chain and the message,
    spelt out field by field. */
module Acceptance {
  import opened Basics
  import opened Strings
  import opened Denoms
  import opened Heights
  import opened Banking
  import opened Chains
  import opened BalanceSheet

  /** The text can stand for an account of the chain. */
  predicate Decodes(c: Chain, t: Text) {
    t.Bech32? && t.hrp == c.hrp
  }

  predicate Filled(t: Text) {
    t.Raw? ==> !Blank(t.text)
  }

  function Now(c: Chain): nat {
    if c.height in c.blockTimes then c.blockTimes[c.height] else 0
  }

  // ---------------------------------------------------------------- transfers

  /** The coin's name is one that a transfer takes, and it resolves to a path. */
  predicate Resolvable(c: Chain, d: Denom) {
    match d
    case Plain(text) => !Blank(text) && '/' !in text && text != "ibc"
    case Ibc(digest, _) => digest in c.traces
  }

  function PathOfCoin(c: Chain, d: Denom): string
    requires Resolvable(c, d)
  {
    match d
    case Plain(text) => text
    case Ibc(digest, _) => c.traces[digest].GetFullDenomPath()
  }

  predicate TimeoutAhead(m: MsgTransfer, client: ClientView) {
    && (m.timeoutHeight != Height(0, 0) || m.timeoutTimestamp != 0)
    && (m.timeoutHeight != Height(0, 0) ==> Earlier(client.latestHeight, m.timeoutHeight))
    && (m.timeoutTimestamp != 0 && client.timestamp.Some? ==> client.timestamp.value < m.timeoutTimestamp)
  }

  predicate TransferAcceptable(c: Chain, m: MsgTransfer, client: ClientView) {
    && c.sendEnabled && client.active && TimeoutAhead(m, client)
    && m.source.Valid() && m.source in c.channels
    && c.channels[m.source].closedAt == None && c.channels[m.source].counterparty.Valid() && c.channels[m.source].nextSequenceSend != 0
    && Decodes(c, m.sender) && Filled(m.receiver)
    && Resolvable(c, m.token.denom)
    && 0 < m.token.amount <= c.bank.Balance(m.sender.address, m.token.denom)
    && (!HasPrefix(PathOfCoin(c, m.token.denom), m.source.Prefix()) || m.token.amount <= c.bank.Supply(m.token.denom))
  }

  lemma ResolvableExactly(c: Chain, d: Denom)
    ensures ValidIBCDenom(d) && FullDenomPath(c, d).Ok? <==> Resolvable(c, d)
    ensures Resolvable(c, d) ==> FullDenomPath(c, d) == Ok(PathOfCoin(c, d))
  {
    if d.Plain? && HasPrefix(d.text, "ibc/") {
      assert d.text[3] == '/';
    }
  }

  lemma TakenExactly(b: Bank, source: Hop, q: string, d: Denom, amount: nat, sender: Address)
    ensures LockOrBurn(b, source, q, d, amount, sender).Ok? <==>
            amount <= b.Balance(sender, d) && (!HasPrefix(q, source.Prefix()) || amount <= b.Supply(d))
  {
    hide HasPrefix, Hop.Prefix, Bank.Balance, Bank.SendCoins, Bank.BurnCoins;
  }

  lemma SentExactly(c: Chain, p: Packet, client: ClientView)
    requires p.payload.Ics20?
    ensures SendPacket(c, p, client).Ok? <==>
            && p.source.Valid() && p.dest.Valid() && p.sequence != 0
            && (p.timeoutHeight != Height(0, 0) || p.timeoutTimestamp != 0)
            && p.source in c.channels && c.channels[p.source].closedAt == None
            && p.dest == c.channels[p.source].counterparty && p.sequence == c.channels[p.source].nextSequenceSend
            && client.active
            && (p.timeoutHeight != Height(0, 0) ==> Earlier(client.latestHeight, p.timeoutHeight))
            && (p.timeoutTimestamp != 0 && client.timestamp.Some? ==> client.timestamp.value < p.timeoutTimestamp)
  {
    hide Hop.Valid, Height.GTE, Height.IsZero, Earlier;
    OrderIsLexicographic(p.timeoutHeight, p.timeoutHeight);
    OrderIsLexicographic(client.latestHeight, p.timeoutHeight);
  }

  /** A transfer message is accepted if and only if it is well formed, sending is enabled, the channel
      is open, its client is active, the timeout lies ahead of what the client knows, the coin
      resolves, and the sender holds the amount. */
  lemma TransferAcceptedIff(c: Chain, m: MsgTransfer, client: ClientView)
    ensures TransferMsg(c, m, client).Ok? <==> TransferAcceptable(c, m, client)
  {
    hide ValidIBCDenom, FullDenomPath, LockOrBurn, SendPacket, Resolvable, PathOfCoin, HasPrefix, Hop.Valid, Hop.Prefix, Bank.Balance, Bank.Supply, Earlier, Blank;
    ResolvableExactly(c, m.token.denom);
    if m.sender.Bech32? && Resolvable(c, m.token.denom) && m.source in c.channels {
      var e, q := c.channels[m.source], PathOfCoin(c, m.token.denom);
      TakenExactly(c.bank, m.source, q, m.token.denom, m.token.amount, m.sender.address);
      var taken := LockOrBurn(c.bank, m.source, q, m.token.denom, m.token.amount, m.sender.address);
      if taken.Ok? {
        var data := PacketData(q, m.token.amount, Bech32(c.hrp, m.sender.address), m.receiver);
        SentExactly(c.(bank := taken.value),
                    Packet(e.nextSequenceSend, m.source, e.counterparty, m.timeoutHeight, m.timeoutTimestamp, Ics20(data)), client);
      }
    }
  }

  // ---------------------------------------------------------------- receives

  /** The receiving end takes the packet at this height and time. */
  predicate Receivable(c: Chain, p: Packet) {
    && p.dest in c.channels && c.channels[p.dest].closedAt == None && p.source == c.channels[p.dest].counterparty
    && (p.timeoutHeight != Height(0, 0) ==> Earlier(c.height, p.timeoutHeight))
    && (p.timeoutTimestamp != 0 ==> Now(c) < p.timeoutTimestamp)
  }

  lemma ReceivableExactly(c: Chain, p: Packet)
    ensures ReceiveError(c, p).None? <==> Receivable(c, p)
  {
    hide Height.GTE, Height.IsZero, Earlier;
    OrderIsLexicographic(p.timeoutHeight, p.timeoutHeight);
    OrderIsLexicographic(c.height, p.timeoutHeight);
  }

  /** A packet whose timeout height lies in an earlier revision than the chain's is refused. */
  lemma EarlierRevisionIsRefused(c: Chain, p: Packet)
    requires p.timeoutHeight != Height(0, 0) && p.timeoutHeight.revisionNumber < c.height.revisionNumber
    ensures ReceiveError(c, p).Some?
  {
    ReceivableExactly(c, p);
  }

  /** What the application asks of a packet: decodable transfer data with a positive amount of a valid
      denomination, receiving enabled, a receiver of this chain, and coins that can be paid. */
  predicate Payable(c: Chain, p: Packet) {
    && p.payload.Ics20? && c.receiveEnabled
    && var data := p.payload.data;
    && data.amount > 0 && Filled(data.sender) && Filled(data.receiver) && ValidPrefixedDenom(data.denom)
    && Decodes(c, data.receiver)
    && if HasPrefix(data.denom, p.source.Prefix())
       then data.amount <= c.bank.Balance(Escrow(p.dest), CoinOf(data.denom[|p.source.Prefix()|..]))
       else data.receiver.address !in c.blocked
  }

  lemma MintedExactly(c: Chain, to: Address, d: Denom, a: nat)
    ensures MintTo(c, to, d, a).Ok? <==> to !in c.blocked
  {
    hide Bank.Balance;
  }

  /** The callback acknowledges success if and only if the packet is payable. */
  lemma CreditedIff(c: Chain, p: Packet)
    requires p.source.Valid()
    ensures RecvCallback(c, p).0.ResultAck? <==> Payable(c, p)
  {
    hide CoinOf, ParseDenomTrace, ValidPrefixedDenom, LosesSlash, MintTo, Hop.Valid, Hop.Prefix, Bank.SendCoins, Bank.Balance, Blank;
    if p.payload.Ics20? && p.payload.data.amount > 0 && ValidPrefixedDenom(p.payload.data.denom) {
      var data := p.payload.data;
      if HasPrefix(data.denom, p.source.Prefix()) {
        var u := data.denom[|p.source.Prefix()|..];
        ValidatedSuffixKeepsSlash(p.source, data.denom);
        SuffixCoin(u);
      } else if data.receiver.Bech32? {
        MintedExactly(c, data.receiver.address, ParseDenomTrace(p.dest.Prefix() + data.denom).IBCDenom(), data.amount);
      }
    }
  }

  lemma SuffixCoin(u: string)
    requires !LosesSlash(u)
    ensures CoinOf(u) == if ParseDenomTrace(u).path != "" then ParseDenomTrace(u).IBCDenom() else Plain(u)
  {
    hide Split;
    PrintInvertsParse(u);
  }

  /** A packet message: executed exactly if it is timely, proven and new, with a success
      acknowledgement exactly if it is payable; a no-op exactly if it is timely, proven and known. */
  lemma ReceiveIff(c: Chain, p: Packet, proven: bool)
    requires p.source.Valid()
    ensures var o := RecvPacketMsg(c, p, proven);
            && (o.Executed? <==> Receivable(c, p) && proven && p.sequence !in c.channels[p.dest].receipts && p.sequence !in c.channels[p.dest].acks)
            && (o.Skipped? <==> Receivable(c, p) && proven && p.sequence in c.channels[p.dest].receipts)
            && (o.Executed? ==> (o.info.ResultAck? <==> Payable(c, p)))
  {
    hide ReceiveError, RecvCallback, Payable, Hop.Valid;
    ReceivableExactly(c, p);
    if ReceiveError(c, p).None? && proven && p.sequence !in c.channels[p.dest].receipts {
      var c1 := ChannelRecvPacket(c, p, proven).chain;
      CreditedIff(c1, p);
      PayableSame(c, c1, p);
      CallbackChannels(c1, p);
    }
  }

  lemma PayableSame(c: Chain, d: Chain, p: Packet)
    requires d == c.(channels := d.channels)
    ensures Payable(c, p) <==> Payable(d, p)
  {
    hide CoinOf, HasPrefix, ValidPrefixedDenom, Bank.Balance, Blank;
  }

  lemma CallbackChannels(c: Chain, p: Packet)
    ensures RecvCallback(c, p).1.channels == c.channels
  {
    hide CoinOf, ParseDenomTrace, HasPrefix, ValidPrefixedDenom, Bank.SendCoins, Bank.MintCoins, Bank.Balance, Hop.Prefix;
  }

  lemma AcknowledgedExactly(c: Chain, p: Packet, ack: Ack)
    ensures WriteAcknowledgement(c, p, ack).Ok? <==>
            p.dest in c.channels && c.channels[p.dest].closedAt == None && p.sequence !in c.channels[p.dest].acks
  {
  }

  // ---------------------------------------------------------------- settlements

  /** The sending end knows the packet's route. */
  predicate Routed(c: Chain, p: Packet) {
    p.source in c.channels && p.dest == c.channels[p.source].counterparty
  }

  /** The sending end waits for this very packet. */
  predicate Waiting(c: Chain, p: Packet) {
    && Routed(c, p) && p.sequence in c.channels[p.source].commitments
    && var m := c.channels[p.source].commitments[p.sequence];
    m.timeoutTimestamp == p.timeoutTimestamp && m.timeoutHeight == p.timeoutHeight && m.payload == p.payload
  }

  /** Nothing is committed under the packet's sequence number any more. */
  predicate Settled(c: Chain, p: Packet) {
    Routed(c, p) && p.sequence !in c.channels[p.source].commitments
  }

  predicate Open(c: Chain, p: Packet) {
    p.source in c.channels && c.channels[p.source].closedAt == None
  }

  /** One of the timeouts that the packet sets had been reached at the proof's height and time. */
  predicate Reached(p: Packet, h: Height, t: nat) {
    || (p.timeoutHeight != Height(0, 0) && !Earlier(h, p.timeoutHeight))
    || (p.timeoutTimestamp != 0 && p.timeoutTimestamp <= t)
  }

  lemma AcknowledgeIff(c: Chain, p: Packet, proven: bool)
    ensures AcknowledgePacket(c, p, proven).Verified? <==> Waiting(c, p) && Open(c, p) && proven
    ensures AcknowledgePacket(c, p, proven).NoOp? <==> Settled(c, p) && Open(c, p)
  {
  }

  /** A timeout is verified if and only if the channel is open and waits for this packet, absence is
      proven, and a timeout had been reached; it is a no-op if and only if the packet is settled and
      a timeout had been reached. */
  lemma TimeoutIff(c: Chain, p: Packet, h: Height, t: Option<nat>, absent: bool)
    ensures TimeoutPacket(c, p, h, t, absent).Verified? <==> Waiting(c, p) && Open(c, p) && absent && t.Some? && Reached(p, h, t.value)
    ensures TimeoutPacket(c, p, h, t, absent).NoOp? <==> Settled(c, p) && t.Some? && Reached(p, h, t.value)
  {
    hide Height.LT, Height.IsZero, Earlier;
    OrderIsLexicographic(p.timeoutHeight, p.timeoutHeight);
    OrderIsLexicographic(h, p.timeoutHeight);
  }

  lemma TimeoutOnCloseIff(c: Chain, p: Packet, closed: bool, absent: bool)
    ensures TimeoutOnClosePacket(c, p, closed, absent).Verified? <==> Waiting(c, p) && closed && absent
    ensures TimeoutOnClosePacket(c, p, closed, absent).NoOp? <==> Settled(c, p)
  {
  }

  /** A refund goes through if and only if the data names a sender of this chain and the coins can be
      given back. */
  predicate GivenBack(c: Chain, p: Packet) {
    && p.payload.Ics20?
    && var data := p.payload.data;
    && data.amount >= 0 && Decodes(c, data.sender)
    && if HasPrefix(data.denom, p.source.Prefix()) then data.sender.address !in c.blocked
       else data.amount <= c.bank.Balance(Escrow(p.source), CoinOf(data.denom))
  }

  lemma RefundIff(c: Chain, p: Packet)
    ensures TimeoutCallback(c, p).Ok? <==> GivenBack(c, p)
    ensures forall ack :: AckCallback(c, p, ack).Ok? <==> p.payload.Ics20? && (ack.ErrorAck? ==> GivenBack(c, p))
    ensures forall ack: Ack :: p.payload.Ics20? && ack.ResultAck? ==> AckCallback(c, p, ack) == Ok(c)
  {
    hide CoinOf, HasPrefix, MintTo, Hop.Prefix, Bank.SendCoins, Bank.Balance;
    if p.payload.Ics20? && p.payload.data.sender.Bech32? && p.payload.data.amount >= 0 {
      MintedExactly(c, p.payload.data.sender.address, CoinOf(p.payload.data.denom), p.payload.data.amount);
    }
  }

  lemma GivenBackSame(c: Chain, d: Chain, p: Packet)
    requires d == c.(channels := d.channels)
    ensures GivenBack(c, p) <==> GivenBack(d, p)
  {
    hide CoinOf, HasPrefix, Bank.Balance;
  }

  /** An acknowledgement message: executed exactly if it is verified and the callback goes through, and
      it reports a refund exactly for error acknowledgements; skipped exactly if settled. */
  lemma AcknowledgementMsgIff(c: Chain, p: Packet, ack: Ack, proven: bool)
    ensures var o := AcknowledgementMsg(c, p, ack, proven);
            && (o.Executed? <==> Waiting(c, p) && Open(c, p) && proven && p.payload.Ics20? && (ack.ErrorAck? ==> GivenBack(c, p)))
            && (o.Skipped? <==> Settled(c, p) && Open(c, p))
            && (o.Executed? ==> (o.info <==> ack.ErrorAck?) && p.sequence !in o.chain.channels[p.source].commitments)
  {
    hide AckCallback, GivenBack;
    AcknowledgeIff(c, p, proven);
    if AcknowledgePacket(c, p, proven).Verified? {
      var c1 := AcknowledgePacket(c, p, proven).chain;
      RefundIff(c1, p);
      GivenBackSame(c, c1, p);
      CallbackKeepsCommitments(c1, p, ack);
    }
  }

  lemma CallbackKeepsCommitments(c: Chain, p: Packet, ack: Ack)
    ensures AckCallback(c, p, ack).Ok? ==> AckCallback(c, p, ack).value.channels == c.channels
    ensures TimeoutCallback(c, p).Ok? ==> TimeoutCallback(c, p).value.channels == c.channels
  {
    hide CoinOf, HasPrefix, MintTo, Hop.Prefix, Bank.SendCoins, Bank.Balance;
  }

  lemma TimeoutMsgIff(c: Chain, p: Packet, h: Height, t: Option<nat>, absent: bool)
    ensures var o := TimeoutMsg(TimeoutPacket(c, p, h, t, absent), p);
            && (o.Executed? <==> Waiting(c, p) && Open(c, p) && absent && t.Some? && Reached(p, h, t.value) && GivenBack(c, p))
            && (o.Skipped? <==> Settled(c, p) && t.Some? && Reached(p, h, t.value))
            && (o.Executed? ==> o.info && p.sequence !in o.chain.channels[p.source].commitments)
  {
    hide TimeoutCallback, GivenBack, Reached, Waiting, Open;
    TimeoutIff(c, p, h, t, absent);
    TimeoutTail(c, p);
    TimeoutVerifiesInPlace(c, p, h, t, absent);
    hide TimeoutPacket;
  }

  lemma TimeoutOnCloseMsgIff(c: Chain, p: Packet, closed: bool, absent: bool)
    ensures var o := TimeoutMsg(TimeoutOnClosePacket(c, p, closed, absent), p);
            && (o.Executed? <==> Waiting(c, p) && closed && absent && GivenBack(c, p))
            && (o.Skipped? <==> Settled(c, p))
            && (o.Executed? ==> o.info && p.sequence !in o.chain.channels[p.source].commitments)
  {
    hide TimeoutCallback, GivenBack, Waiting;
    TimeoutOnCloseIff(c, p, closed, absent);
    TimeoutTail(c, p);
    TimeoutOnCloseVerifiesInPlace(c, p, closed, absent);
    hide TimeoutOnClosePacket;
  }

  lemma TimeoutVerifiesInPlace(c: Chain, p: Packet, h: Height, t: Option<nat>, absent: bool)
    ensures TimeoutPacket(c, p, h, t, absent).Verified? ==> TimeoutPacket(c, p, h, t, absent).chain == c && p.source in c.channels
  {
  }

  lemma TimeoutOnCloseVerifiesInPlace(c: Chain, p: Packet, closed: bool, absent: bool)
    ensures TimeoutOnClosePacket(c, p, closed, absent).Verified? ==> TimeoutOnClosePacket(c, p, closed, absent).chain == c && p.source in c.channels
  {
  }

  lemma TimeoutTail(c: Chain, p: Packet)
    ensures p.source in c.channels ==>
              var o := TimeoutMsg(Verified(c), p);
              && (o.Executed? <==> GivenBack(c, p)) && !o.Skipped?
              && (o.Executed? ==> o.info && p.source in o.chain.channels && p.sequence !in o.chain.channels[p.source].commitments)
  {
    hide TimeoutCallback, GivenBack;
    RefundIff(c, p);
    CallbackKeepsCommitments(c, p, ResultAck);
  }
}
