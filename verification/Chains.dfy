/** One chain as the transfer protocol sees it: its bank, its trace store and its channel ends, and
    the effect of each message handler as a function of that state.

    Channel layer: modules/core/04-channel/keeper/packet.go and timeout.go.
    Application:   modules/apps/transfer/keeper/relay.go and modules/apps/transfer/ibc_module.go.
    Messages:      modules/core/keeper/msg_server.go. */
module Chains {
  import opened Basics
  import opened Strings
  import opened Denoms
  import opened Heights
  import opened Banking

  const MODULE_ACCOUNT := Module("transfer")

  datatype Error =
    | SendDisabled | ReceiveDisabled | ChannelNotFound | ChannelClosed | InvalidPacket | InvalidDenom | TraceNotFound
    | InsufficientFunds | ClientNotActive | PacketTimeout | TimeoutNotReached | InvalidProof | InvalidAmount
    | InvalidAddress | BlockedAddress | UndecodableData | AcknowledgementExists | InvalidMessage | Panic

  datatype Result<+T> = Ok(value: T) | Err(error: Error)
  {
    predicate IsFailure() { Err? }
    function PropagateFailure<U>(): Result<U> requires Err? { Err(error) }
    function Extract(): T requires Ok? { value }
  }

  /** A string in the place of an address: the bech32 form of an address under some chain's
      human-readable part, or a string that is no such form. */
  datatype Text = Bech32(hrp: string, address: Address) | Raw(text: string)
  {
    predicate IsBlank() { Raw? && Blank(text) }
  }

  datatype PacketData = PacketData(denom: string, amount: int, sender: Text, receiver: Text)
  {
    predicate ValidBasic() {
      amount > 0 && !sender.IsBlank() && !receiver.IsBlank() && ValidPrefixedDenom(denom)
    }
  }

  /** Packet bytes: the JSON form of transfer data, or bytes that do not decode as such. */
  datatype Payload = Ics20(data: PacketData) | Opaque(bytes: string)

  datatype Packet = Packet(sequence: nat, source: Hop, dest: Hop, timeoutHeight: Height, timeoutTimestamp: nat, payload: Payload)
  {
    predicate ValidBasic() {
      && source.Valid() && dest.Valid()
      && sequence != 0
      && !(timeoutHeight.IsZero() && timeoutTimestamp == 0)
      && payload != Opaque("")
    }
  }

  /** The hash stored for a sent packet. It covers timeout and data; port, channel and sequence
      are in the key under which it is stored. */
  datatype Commitment = Commitment(timeoutTimestamp: nat, timeoutHeight: Height, payload: Payload)

  function CommitPacket(p: Packet): Commitment {
    Commitment(p.timeoutTimestamp, p.timeoutHeight, p.payload)
  }

  datatype Ack = ResultAck | ErrorAck(error: Error)

  /** One end of an unordered channel.

      The store value of a receipt is a constant byte; the model keeps in its place the height of
      the block that wrote it, which decides at which later heights a proof can show it.
      `history` holds every commitment ever stored, which is what a membership proof at some past
      height can show; the code itself never reads it. */
  datatype ChannelEnd = ChannelEnd(
    counterparty: Hop,
    closedAt: Option<Height>,
    nextSequenceSend: nat,
    commitments: map<nat, Commitment>,
    receipts: map<nat, Height>,
    acks: map<nat, Ack>,
    history: map<nat, Commitment>)

  datatype Chain = Chain(
    hrp: string,
    bank: Bank,
    traces: map<Digest, DenomTrace>,
    channels: map<Hop, ChannelEnd>,
    sendEnabled: bool,
    receiveEnabled: bool,
    blocked: set<Address>,
    height: Height,
    blockTimes: map<Height, nat>)
  {
    function Time(): nat {
      if height in blockTimes then blockTimes[height] else 0
    }

    function DecodeAddress(t: Text): Option<Address> {
      if t.Bech32? && t.hrp == hrp then Some(t.address) else None
    }

    function WithEnd(end: Hop, e: ChannelEnd): Chain {
      this.(channels := channels[end := e])
    }
  }

  /** What the sending chain's light client knows of the receiving chain. `timestamp` is `None` for
      a solo machine, whose timestamp is not consulted. */
  datatype ClientView = ClientView(active: bool, latestHeight: Height, timestamp: Option<nat>)

  // ---------------------------------------------------------------- channel layer

  function SendPacket(c: Chain, p: Packet, client: ClientView): Result<Chain> {
    if !p.ValidBasic() then Err(InvalidPacket)
    else if p.source !in c.channels then Err(ChannelNotFound)
    else
      var e := c.channels[p.source];
      if e.closedAt.Some? then Err(ChannelClosed)
      else if p.dest != e.counterparty then Err(InvalidPacket)
      else if !client.active then Err(ClientNotActive)
      else if !p.timeoutHeight.IsZero() && client.latestHeight.GTE(p.timeoutHeight) then Err(PacketTimeout)
      else if client.timestamp.Some? && p.timeoutTimestamp != 0 && client.timestamp.value >= p.timeoutTimestamp then
        Err(PacketTimeout)
      else if p.sequence != e.nextSequenceSend then Err(InvalidPacket)
      else
        Ok(c.WithEnd(p.source, e.(nextSequenceSend := (e.nextSequenceSend + 1) % TWO_TO_THE_64,
                                  commitments := e.commitments[p.sequence := CommitPacket(p)],
                                  history := e.history[p.sequence := CommitPacket(p)])))
  }

  /** Outcome of the channel layer's part of a relayed message. */
  datatype Verification = Verified(chain: Chain) | NoOp | Refused(error: Error)

  /** The checks on the receiving chain that do not look at a proof or at receipts. */
  function ReceiveError(c: Chain, p: Packet): Option<Error> {
    if p.dest !in c.channels then Some(ChannelNotFound)
    else if c.channels[p.dest].closedAt.Some? then Some(ChannelClosed)
    else if p.source != c.channels[p.dest].counterparty then Some(InvalidPacket)
    else if !p.timeoutHeight.IsZero() && c.height.GTE(p.timeoutHeight) then Some(PacketTimeout)
    else if p.timeoutTimestamp != 0 && c.Time() >= p.timeoutTimestamp then Some(PacketTimeout)
    else None
  }

  function ChannelRecvPacket(c: Chain, p: Packet, commitmentProven: bool): Verification {
    var error := ReceiveError(c, p);
    if error.Some? then Refused(error.value)
    else if !commitmentProven then Refused(InvalidProof)
    else
      var e := c.channels[p.dest];
      if p.sequence in e.receipts then NoOp
      else Verified(c.WithEnd(p.dest, e.(receipts := e.receipts[p.sequence := c.height])))
  }

  function WriteAcknowledgement(c: Chain, p: Packet, ack: Ack): Result<Chain> {
    if p.dest !in c.channels then Err(ChannelNotFound)
    else
      var e := c.channels[p.dest];
      if e.closedAt.Some? then Err(ChannelClosed)
      else if p.sequence in e.acks then Err(AcknowledgementExists)
      else Ok(c.WithEnd(p.dest, e.(acks := e.acks[p.sequence := ack])))
  }

  function DeleteCommitment(c: Chain, p: Packet): Chain
    requires p.source in c.channels
  {
    var e := c.channels[p.source];
    c.WithEnd(p.source, e.(commitments := e.commitments - {p.sequence}))
  }

  function AcknowledgePacket(c: Chain, p: Packet, ackProven: bool): Verification {
    if p.source !in c.channels then Refused(ChannelNotFound)
    else
      var e := c.channels[p.source];
      if e.closedAt.Some? then Refused(ChannelClosed)
      else if p.dest != e.counterparty then Refused(InvalidPacket)
      else if p.sequence !in e.commitments then NoOp
      else if e.commitments[p.sequence] != CommitPacket(p) then Refused(InvalidPacket)
      else if !ackProven then Refused(InvalidProof)
      else Verified(DeleteCommitment(c, p))
  }

  /** `TimeoutPacket`; the commitment is deleted afterwards by `TimeoutExecuted`. */
  function TimeoutPacket(c: Chain, p: Packet, proofHeight: Height, proofTime: Option<nat>, absenceProven: bool): Verification {
    if p.source !in c.channels then Refused(ChannelNotFound)
    else
      var e := c.channels[p.source];
      if p.dest != e.counterparty then Refused(InvalidPacket)
      else if proofTime.None? then Refused(InvalidProof)
      else if (p.timeoutHeight.IsZero() || proofHeight.LT(p.timeoutHeight))
              && (p.timeoutTimestamp == 0 || proofTime.value < p.timeoutTimestamp) then Refused(TimeoutNotReached)
      else if p.sequence !in e.commitments then NoOp
      else if e.closedAt.Some? then Refused(ChannelClosed)
      else if e.commitments[p.sequence] != CommitPacket(p) then Refused(InvalidPacket)
      else if !absenceProven then Refused(InvalidProof)
      else Verified(c)
  }

  function TimeoutOnClosePacket(c: Chain, p: Packet, closeProven: bool, absenceProven: bool): Verification {
    if p.source !in c.channels then Refused(ChannelNotFound)
    else
      var e := c.channels[p.source];
      if p.dest != e.counterparty then Refused(InvalidPacket)
      else if p.sequence !in e.commitments then NoOp
      else if e.commitments[p.sequence] != CommitPacket(p) then Refused(InvalidPacket)
      else if !closeProven then Refused(InvalidProof)
      else if !absenceProven then Refused(InvalidProof)
      else Verified(c)
  }

  // ---------------------------------------------------------------- transfer application

  /** The full path of a coin: for `ibc/` denominations through the trace store. */
  function FullDenomPath(c: Chain, d: Denom): Result<string> {
    match d
    case Plain(text) => if HasPrefix(text, "ibc/") then Err(InvalidDenom) else Ok(text)
    case Ibc(digest, _) => if digest in c.traces then Ok(c.traces[digest].GetFullDenomPath()) else Err(TraceNotFound)
  }

  /** Takes the coins of a transfer out of circulation on the sending chain. */
  function LockOrBurn(b: Bank, source: Hop, path: string, d: Denom, amount: nat, sender: Address): Result<Bank> {
    if SenderChainIsSource(source, path) then
      var r := b.SendCoins(sender, Escrow(source), d, amount);
      if r.Some? then Ok(r.value) else Err(InsufficientFunds)
    else
      var r := b.SendCoins(sender, MODULE_ACCOUNT, d, amount);
      if r.None? then Err(InsufficientFunds)
      else
        var burnt := r.value.BurnCoins(MODULE_ACCOUNT, d, amount);
        if burnt.Some? then Ok(burnt.value) else Err(Panic)
  }

  datatype Coin = Coin(denom: Denom, amount: nat)

  datatype MsgTransfer = MsgTransfer(source: Hop, token: Coin, sender: Text, receiver: Text, timeoutHeight: Height, timeoutTimestamp: nat)

  function SendTransfer(c: Chain, m: MsgTransfer, sender: Address, client: ClientView): Result<Chain> {
    if !c.sendEnabled then Err(SendDisabled)
    else if m.source !in c.channels then Err(ChannelNotFound)
    else
      var e := c.channels[m.source];
      var path :- FullDenomPath(c, m.token.denom);
      var bank :- LockOrBurn(c.bank, m.source, path, m.token.denom, m.token.amount, sender);
      var data := PacketData(path, m.token.amount, Bech32(c.hrp, sender), m.receiver);
      SendPacket(c.(bank := bank),
                 Packet(e.nextSequenceSend, m.source, e.counterparty, m.timeoutHeight, m.timeoutTimestamp, Ics20(data)), client)
  }

  /** `SendCoinsFromModuleToAccount` after a mint; blocked addresses cannot be paid this way. */
  function MintTo(c: Chain, to: Address, d: Denom, amount: nat): Result<Bank> {
    var minted := c.bank.MintCoins(MODULE_ACCOUNT, d, amount);
    if to in c.blocked then Err(BlockedAddress)
    else
      var r := minted.SendCoins(MODULE_ACCOUNT, to, d, amount);
      if r.Some? then Ok(r.value) else Err(InsufficientFunds)
  }

  /** The transfer keeper's receive logic; a failed callback's state is discarded by the caller. */
  function OnRecvPacket(c: Chain, p: Packet, data: PacketData): Result<Chain> {
    if !data.ValidBasic() then Err(InvalidMessage)
    else if !c.receiveEnabled then Err(ReceiveDisabled)
    else
      var receiver := c.DecodeAddress(data.receiver);
      if receiver.None? then Err(InvalidAddress)
      else if ReceiverChainIsSource(p.source, data.denom) then
        var unprefixed := data.denom[|p.source.Prefix()|..];
        var trace := ParseDenomTrace(unprefixed);
        var d := if trace.path != "" then trace.IBCDenom() else Plain(unprefixed);
        var r := c.bank.SendCoins(Escrow(p.dest), receiver.value, d, data.amount);
        if r.Some? then Ok(c.(bank := r.value)) else Err(InsufficientFunds)
      else
        var trace := ParseDenomTrace(p.dest.Prefix() + data.denom);
        var traces := if trace.Hash() in c.traces then c.traces else c.traces[trace.Hash() := trace];
        var bank :- MintTo(c, receiver.value, trace.IBCDenom(), data.amount);
        Ok(c.(bank := bank, traces := traces))
  }

  function RefundPacketToken(c: Chain, p: Packet, data: PacketData): Result<Chain> {
    var d := CoinOf(data.denom);
    if data.amount < 0 then Err(Panic)
    else
      var sender := c.DecodeAddress(data.sender);
      if sender.None? then Err(InvalidAddress)
      else if SenderChainIsSource(p.source, data.denom) then
        var r := c.bank.SendCoins(Escrow(p.source), sender.value, d, data.amount);
        if r.Some? then Ok(c.(bank := r.value)) else Err(InsufficientFunds)
      else
        var r := MintTo(c, sender.value, d, data.amount);
        if r.Ok? then Ok(c.(bank := r.value)) else Err(Panic)
  }

  /** The module callback: undecodable data and failed receives become error acknowledgements. */
  function RecvCallback(c: Chain, p: Packet): (Ack, Chain) {
    match p.payload
    case Opaque(_) => (ErrorAck(UndecodableData), c)
    case Ics20(data) =>
      var r := OnRecvPacket(c, p, data);
      if r.Ok? then (ResultAck, r.value) else (ErrorAck(r.error), c)
  }

  function AckCallback(c: Chain, p: Packet, ack: Ack): Result<Chain> {
    match p.payload
    case Opaque(_) => Err(UndecodableData)
    case Ics20(data) => if ack.ErrorAck? then RefundPacketToken(c, p, data) else Ok(c)
  }

  function TimeoutCallback(c: Chain, p: Packet): Result<Chain> {
    match p.payload
    case Opaque(_) => Err(UndecodableData)
    case Ics20(data) => RefundPacketToken(c, p, data)
  }

  // ---------------------------------------------------------------- message handlers

  /** What a relayed message does: it fails and leaves no trace, it is a no-op, or it runs the
      application callback; `refunded` and `ack` tell which callback branch ran. */
  datatype Outcome<+T> = Rejected(error: Error) | Skipped | Executed(chain: Chain, info: T)

  predicate MsgTransferValidBasic(m: MsgTransfer) {
    m.source.Valid() && m.token.amount > 0 && m.sender.Bech32? && !m.receiver.IsBlank() && ValidIBCDenom(m.token.denom)
  }

  function TransferMsg(c: Chain, m: MsgTransfer, client: ClientView): Result<Chain> {
    if !MsgTransferValidBasic(m) then Err(InvalidMessage)
    else
      var sender := c.DecodeAddress(m.sender);
      if sender.None? then Err(InvalidAddress) else SendTransfer(c, m, sender.value, client)
  }

  function RecvPacketMsg(c: Chain, p: Packet, commitmentProven: bool): Outcome<Ack> {
    match ChannelRecvPacket(c, p, commitmentProven)
    case Refused(error) => Rejected(error)
    case NoOp => Skipped
    case Verified(c1) =>
      var (ack, cached) := RecvCallback(c1, p);
      var c2 := if ack.ResultAck? then cached else c1;
      var r := WriteAcknowledgement(c2, p, ack);
      if r.Ok? then Executed(r.value, ack) else Rejected(r.error)
  }

  function AcknowledgementMsg(c: Chain, p: Packet, ack: Ack, ackProven: bool): Outcome<bool> {
    match AcknowledgePacket(c, p, ackProven)
    case Refused(error) => Rejected(error)
    case NoOp => Skipped
    case Verified(c1) =>
      var r := AckCallback(c1, p, ack);
      if r.Ok? then Executed(r.value, ack.ErrorAck?) else Rejected(r.error)
  }

  /** `Timeout` and `TimeoutOnClose` share everything after the channel layer's verification. */
  function TimeoutMsg(v: Verification, p: Packet): Outcome<bool> {
    match v
    case Refused(error) => Rejected(error)
    case NoOp => Skipped
    case Verified(c1) =>
      var r := TimeoutCallback(c1, p);
      if r.Err? then Rejected(r.error)
      else if p.source !in r.value.channels then Rejected(ChannelNotFound)
      else Executed(DeleteCommitment(r.value, p), true)
  }
}
