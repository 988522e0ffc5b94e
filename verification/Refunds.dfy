/** A refund is the exact inverse of the send: when it is, and when it is not. */
module Refunds {
  import opened Basics
  import opened Strings
  import opened Denoms
  import opened Heights
  import opened Banking
  import opened Chains
  import opened Network
  import opened BalanceSheet
  import opened Safety
  import opened Guarantees

  /** The packet that a transfer writes on channel end `m.source`. */
  function SentPacket(c: Chain, m: MsgTransfer): Packet
    requires m.source in c.channels && FullDenomPath(c, m.token.denom).Ok? && m.sender.Bech32?
  {
    var e := c.channels[m.source];
    Packet(e.nextSequenceSend, m.source, e.counterparty, m.timeoutHeight, m.timeoutTimestamp,
           SentCommitment(c, m, FullDenomPath(c, m.token.denom).value).payload)
  }

  /** What can be checked before sending: the coin's name is the one the code would print for the
      path it resolves to, and coins that would be minted back can be paid to the sender. */
  predicate Refundable(c: Chain, m: MsgTransfer) {
    && m.sender.Bech32? && FullDenomPath(c, m.token.denom).Ok?
    && var q := FullDenomPath(c, m.token.denom).value;
    && (match m.token.denom
        case Plain(_) => true
        case Ibc(digest, spelling) => spelling == Canonical && Sha256(q) == digest && '/' in q && !LosesSlash(q))
    && (SenderChainIsSource(m.source, q) || m.sender.address !in c.blocked)
  }

  /** The refunding message goes through and leaves every balance, every supply and the trace
      store as they were before the send, and no commitment. */
  ghost predicate Undone(c: Chain, o: Outcome<bool>, p: Packet)
  {
    && o.Executed?
    && (forall x, y :: o.chain.bank.Balance(x, y) == c.bank.Balance(x, y))
    && (forall y :: o.chain.bank.Supply(y) == c.bank.Supply(y))
    && o.chain.traces == c.traces
    && p.source in c.channels && p.source in o.chain.channels
    && o.chain.channels[p.source].commitments == c.channels[p.source].commitments - {p.sequence}
  }

  /** The coin a refund pays is the coin that was debited exactly when the name is faithful. */
  lemma RefundedCoin(c: Chain, d: Denom)
    requires ValidIBCDenom(d) && FullDenomPath(c, d).Ok?
    ensures var q := FullDenomPath(c, d).value;
            CoinOf(q) == d <==> (d.Plain? || (d.spelling == Canonical && Sha256(q) == d.digest && '/' in q && !LosesSlash(q)))
  {
    var q := FullDenomPath(c, d).value;
    if LosesSlash(q) {
      LostSlash(q);
    } else {
      CoinOfCases(q);
    }
  }

  /** What a successful transfer leaves behind. */
  lemma TransferLeaves(c: Chain, m: MsgTransfer, client: ClientView)
    requires TransferMsg(c, m, client).Ok?
    ensures m.token.amount > 0 && m.sender.Bech32? && m.source in c.channels && ValidIBCDenom(m.token.denom) && FullDenomPath(c, m.token.denom).Ok?
    ensures var c1, q, p := TransferMsg(c, m, client).value, FullDenomPath(c, m.token.denom).value, SentPacket(c, m);
            var taken := LockOrBurn(c.bank, m.source, q, m.token.denom, m.token.amount, m.sender.address);
            && taken.Ok? && c1 == c.(bank := taken.value, channels := c1.channels)
            && p.source == m.source && m.source in c1.channels && c1.channels[m.source].closedAt.None?
            && p.dest == c1.channels[m.source].counterparty
            && c1.channels[m.source].commitments == c.channels[m.source].commitments[p.sequence := CommitPacket(p)]
            && p.payload == Ics20(PacketData(q, m.token.amount, Bech32(c.hrp, m.sender.address), m.receiver))
  {
    hide LockOrBurn, FullDenomPath, ValidIBCDenom, Hop.Valid;
  }

  /** The bank before a send, after it, and after the refund of it. */
  lemma RefundedBank(c: Chain, m: MsgTransfer, client: ClientView, c1: Chain)
    requires TransferMsg(c, m, client).Ok? && m.sender.Bech32? && m.sender.address.User?
    requires c1.bank == TransferMsg(c, m, client).value.bank && c1.hrp == c.hrp && c1.blocked == c.blocked
    ensures FullDenomPath(c, m.token.denom).Ok? && m.source in c.channels
    ensures var p := SentPacket(c, m);
            && p.payload.Ics20? && p.source == m.source
            && var r := RefundPacketToken(c1, p, p.payload.data);
            Refundable(c, m) <==>
            && r.Ok?
            && (forall x, y :: r.value.bank.Balance(x, y) == c.bank.Balance(x, y))
            && (forall y :: r.value.bank.Supply(y) == c.bank.Supply(y))
  {
    hide TransferMsg, LockOrBurn, RefundPacketToken, FullDenomPath, ValidIBCDenom, CoinOf, LosesSlash, HasPrefix, Bank.Balance, Bank.Supply;
    TransferLeaves(c, m, client);
    RefundedCoin(c, m.token.denom);
    var q, p, who := FullDenomPath(c, m.token.denom).value, SentPacket(c, m), m.sender.address;
    var data := p.payload.data;
    var r := RefundPacketToken(c1, p, data);
    RefundGoesThrough(c1, p, data);
    if CoinOf(q) == m.token.denom {
      LockOrBurnLocks(c.bank, m.source, q, m.token.denom, m.token.amount, who);
      if r.Ok? {
        RefundUnlocks(c1, p, data);
      }
    } else {
      DebitShows(c.bank, m.source, q, m.token.denom, m.token.amount, who);
      if r.Ok? {
        RefundUnlocks(c1, p, data);
        assert r.value.bank.Balance(who, m.token.denom) == c1.bank.Balance(who, m.token.denom);
      }
    }
  }

  /** When a refund goes through: enough in escrow, or a sender that can be paid. */
  lemma RefundGoesThrough(c: Chain, p: Packet, data: PacketData)
    requires data.amount >= 0 && c.DecodeAddress(data.sender).Some?
    ensures RefundPacketToken(c, p, data).Ok? <==>
            if SenderChainIsSource(p.source, data.denom) then data.amount <= c.bank.Balance(Escrow(p.source), CoinOf(data.denom))
            else c.DecodeAddress(data.sender).value !in c.blocked
  {
    hide HasPrefix, CoinOf, Bank.Balance, Bank.SendCoins, Bank.MintCoins;
  }

  lemma DebitShows(b: Bank, source: Hop, q: string, d: Denom, amount: nat, sender: Address)
    requires LockOrBurn(b, source, q, d, amount, sender).Ok? && sender.User?
    ensures LockOrBurn(b, source, q, d, amount, sender).value.Balance(sender, d) + amount == b.Balance(sender, d)
  {
    hide HasPrefix, Bank.Balance, Bank.SendCoins, Bank.BurnCoins;
  }

  /** For every chain and every transfer: timing the packet out, or acknowledging it with an error,
      undoes the send if and only if the transfer was `Refundable`. */
  lemma RefundUndoesSend(c: Chain, m: MsgTransfer, client: ClientView, e: Error)
    requires TransferMsg(c, m, client).Ok? && m.sender.Bech32? && m.sender.address.User?
    ensures FullDenomPath(c, m.token.denom).Ok? && m.source in c.channels
    ensures var c1, p := TransferMsg(c, m, client).value, SentPacket(c, m);
            && (Undone(c, TimeoutMsg(Verified(c1), p), p) <==> Refundable(c, m))
            && (Undone(c, AcknowledgementMsg(c1, p, ErrorAck(e), true), p) <==> Refundable(c, m))
  {
    hide TransferMsg, LockOrBurn, RefundPacketToken, FullDenomPath, ValidIBCDenom, Refundable, Bank.Balance, Bank.Supply;
    TransferLeaves(c, m, client);
    var c1, p := TransferMsg(c, m, client).value, SentPacket(c, m);
    RefundedBank(c, m, client, c1);
    RefundKeepsRest(c1, p, p.payload.data);
    var c2 := DeleteCommitment(c1, p);
    RefundedBank(c, m, client, c2);
    RefundKeepsRest(c2, p, p.payload.data);
  }

  lemma RefundKeepsRest(c: Chain, p: Packet, data: PacketData)
    ensures RefundPacketToken(c, p, data).Ok? ==>
              RefundPacketToken(c, p, data).value == c.(bank := RefundPacketToken(c, p, data).value.bank)
  {
  }

  /** In every reachable state every accepted transfer of a user is `Refundable`. */
  lemma ReachableTransfersAreRefundable(n: Net, x: string, m: MsgTransfer, client: ClientView)
    requires Reachable(n) && x in n.chains && m.sender.Bech32? && m.sender.address.User?
    requires TransferMsg(n.chains[x], m, client).Ok?
    ensures Refundable(n.chains[x], m)
  {
    hide Reachable, Inv, TransferMsg, FullDenomPath, ValidIBCDenom, CoinOf, LosesSlash, HasPrefix, Bank.Balance, Bank.Supply, LockOrBurn;
    ReachableHasInv(n);
    InvParts(n, x);
    var c := n.chains[x];
    TransferLeaves(c, m, client);
    LockOrBurnNeedsFunds(c.bank, m.source, FullDenomPath(c, m.token.denom).value, m.token.denom, m.token.amount, m.sender.address);
    SentCoinIsCoinOfPath(c, m.token.denom, m.sender.address, m.token.amount);
    RefundedCoin(c, m.token.denom);
  }

  // ---------------------------------------------------------------- where it fails

  const UATOM := Ibc(Sha256("uatom"), Canonical)
  const END := Hop("transfer", "channel-0")

  /** A genesis trace with an empty path passes validation; a coin named by its hash does not. */
  function EmptyPathChain(): Chain {
    Chain("cosmos", Bank(map[UATOM := map[User("alice") := 5]], map[UATOM := 5]), map[Sha256("uatom") := DenomTrace("", "uatom")],
          map[END := ChannelEnd(Hop("transfer", "channel-1"), None, 1, map[], map[], map[], map[])],
          true, true, {}, Height(0, 1), map[Height(0, 1) := 0])
  }

  function EmptyPathTransfer(): MsgTransfer {
    MsgTransfer(END, Coin(UATOM, 5), Bech32("cosmos", User("alice")), Raw("bob"), Height(0, 100), 0)
  }

  /** The coins are escrowed, and no refund can bring them back. */
  lemma EmptyPathLosesRefund()
    ensures var c, m, client := EmptyPathChain(), EmptyPathTransfer(), ClientView(true, Height(0, 1), None);
            && c.traces[Sha256("uatom")].Validate()
            && TransferMsg(c, m, client).Ok?
            && TimeoutMsg(Verified(TransferMsg(c, m, client).value), SentPacket(c, m)) == Rejected(InsufficientFunds)
  {
    hide RefundPacketToken, TransferMsg, HasPrefix, Bank.Balance;
    var c, m, client := EmptyPathChain(), EmptyPathTransfer(), ClientView(true, Height(0, 1), None);
    EmptyPathAccepted();
    TransferLeaves(c, m, client);
    EmptyPathEscrow();
    hide LockOrBurn;
    var c1 := TransferMsg(c, m, client).value;
    CoinOfCases("uatom");
    RefundGoesThrough(c1, SentPacket(c, m), SentPacket(c, m).payload.data);
    RefundFailure(c1, SentPacket(c, m), SentPacket(c, m).payload.data);
  }

  lemma EmptyPathAccepted()
    ensures TransferMsg(EmptyPathChain(), EmptyPathTransfer(), ClientView(true, Height(0, 1), None)).Ok?
  {
    hide LockOrBurn, HasPrefix, Hop.Valid, Hop.Prefix, Bank.Balance, Blank;
    EmptyPathEscrow();
    ValidEnds();
  }

  lemma EmptyPathEscrow()
    ensures SenderChainIsSource(END, "uatom")
    ensures var b := LockOrBurn(EmptyPathChain().bank, END, "uatom", UATOM, 5, User("alice"));
            b.Ok? && b.value.Balance(Escrow(END), Plain("uatom")) == 0
  {
    assert |END.Prefix()| == 19;
    var b := EmptyPathChain().bank;
    assert b.Balance(User("alice"), UATOM) == 5;
    assert b.Balance(Escrow(END), Plain("uatom")) == 0;
  }

  lemma RefundFailure(c: Chain, p: Packet, data: PacketData)
    requires data.amount >= 0 && c.DecodeAddress(data.sender).Some? && SenderChainIsSource(p.source, data.denom)
    ensures RefundPacketToken(c, p, data).Err? ==> RefundPacketToken(c, p, data) == Err(InsufficientFunds)
  {
  }

  lemma ValidEnds()
    ensures END.Valid() && Hop("transfer", "channel-1").Valid() && !Blank("bob")
  {
    assert SpaceWidth("transfer") == 0 && SpaceWidth("channel-0") == 0 && SpaceWidth("channel-1") == 0 && SpaceWidth("bob") == 0;
  }
}
