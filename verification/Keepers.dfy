/** The handlers as the program performs them: on a mutable store, one keeper call after another,
    returning early on errors, with cached contexts that are written back or dropped. Each is
    proved to have the effect that `Chains` gives as a function of the state, so the guarantees
    over runs are guarantees of these methods.

    modules/apps/transfer/keeper/relay.go, modules/apps/transfer/ibc_module.go,
    modules/core/04-channel/keeper/packet.go and timeout.go, modules/core/keeper/msg_server.go. */
module Keepers {
  import opened Basics
  import opened Strings
  import opened Denoms
  import opened Heights
  import opened Banking
  import opened Chains

  /** What a keeper call reports: `Done` for a nil error. */
  datatype Status = Done | NoOpMsg | Failed(error: Error)

  datatype Message =
    | MsgRecvPacket(packet: Packet, commitmentProven: bool)
    | MsgAcknowledgement(packet: Packet, ack: Ack, ackProven: bool)
    | MsgTimeout(packet: Packet, proofHeight: Height, proofTime: Option<nat>, absenceProven: bool)
    | MsgTimeoutOnClose(packet: Packet, closeProven: bool, absenceProven: bool)

  /** The effect of a relayed message on a chain as a function. */
  function Effect(c: Chain, m: Message): Outcome<bool> {
    match m
    case MsgRecvPacket(p, proven) =>
      (match RecvPacketMsg(c, p, proven)
       case Rejected(error) => Rejected(error)
       case Skipped => Skipped
       case Executed(chain, ack) => Executed(chain, ack.ResultAck?))
    case MsgAcknowledgement(p, ack, proven) => AcknowledgementMsg(c, p, ack, proven)
    case MsgTimeout(p, h, t, absent) => TimeoutMsg(Chains.TimeoutPacket(c, p, h, t, absent), p)
    case MsgTimeoutOnClose(p, closed, absent) => TimeoutMsg(TimeoutOnClosePacket(c, p, closed, absent), p)
  }

  class Store {
    var hrp: string
    var bank: Bank
    var traces: map<Digest, DenomTrace>
    var channels: map<Hop, ChannelEnd>
    var sendEnabled: bool
    var receiveEnabled: bool
    var blocked: set<Address>
    var height: Height
    var blockTimes: map<Height, nat>

    function View(): Chain
      reads this
    {
      Chain(hrp, bank, traces, channels, sendEnabled, receiveEnabled, blocked, height, blockTimes)
    }

    constructor (c: Chain)
      ensures View() == c
    {
      hrp, bank, traces, channels := c.hrp, c.bank, c.traces, c.channels;
      sendEnabled, receiveEnabled, blocked, height, blockTimes := c.sendEnabled, c.receiveEnabled, c.blocked, c.height, c.blockTimes;
    }

    /** `ctx.CacheContext()`: a branch of the store. */
    method CacheContext() returns (cache: Store)
      ensures fresh(cache) && cache.View() == View()
    {
      cache := new Store(View());
    }

    /** `writeFn()` of a branch. */
    method Write(cache: Store)
      modifies this
      ensures View() == old(cache.View())
    {
      var c := cache.View();
      hrp, bank, traces, channels := c.hrp, c.bank, c.traces, c.channels;
      sendEnabled, receiveEnabled, blocked, height, blockTimes := c.sendEnabled, c.receiveEnabled, c.blocked, c.height, c.blockTimes;
    }

    // -------------------------------------------------------------- bank keeper

    method SendCoins(from: Address, to: Address, d: Denom, n: nat) returns (ok: bool)
      modifies this`bank
      ensures ok <==> old(bank).SendCoins(from, to, d, n).Some?
      ensures bank == if ok then old(bank).SendCoins(from, to, d, n).value else old(bank)
    {
      var r := bank.SendCoins(from, to, d, n);
      if r.Some? {
        bank := r.value;
      }
      return r.Some?;
    }

    method SendCoinsFromModuleToAccount(to: Address, d: Denom, n: nat) returns (status: Status)
      modifies this`bank
      ensures status == if to in blocked then Failed(BlockedAddress)
                        else if n <= old(bank).Balance(MODULE_ACCOUNT, d) then Done else Failed(InsufficientFunds)
      ensures bank == if status.Done? then old(bank).SendCoins(MODULE_ACCOUNT, to, d, n).value else old(bank)
    {
      if to in blocked {
        return Failed(BlockedAddress);
      }
      var ok := SendCoins(MODULE_ACCOUNT, to, d, n);
      return if ok then Done else Failed(InsufficientFunds);
    }

    // -------------------------------------------------------------- channel keeper

    method SendPacket(p: Packet, client: ClientView) returns (status: Status)
      modifies this`channels
      ensures var r := Chains.SendPacket(old(View()), p, client);
              if r.Ok? then status == Done && View() == r.value else status == Failed(r.error) && View() == old(View())
    {
      if !p.ValidBasic() {
        return Failed(InvalidPacket);
      }
      if p.source !in channels {
        return Failed(ChannelNotFound);
      }
      var e := channels[p.source];
      if e.closedAt.Some? {
        return Failed(ChannelClosed);
      }
      if p.dest != e.counterparty {
        return Failed(InvalidPacket);
      }
      if !client.active {
        return Failed(ClientNotActive);
      }
      if !p.timeoutHeight.IsZero() && client.latestHeight.GTE(p.timeoutHeight) {
        return Failed(PacketTimeout);
      }
      if client.timestamp.Some? && p.timeoutTimestamp != 0 && client.timestamp.value >= p.timeoutTimestamp {
        return Failed(PacketTimeout);
      }
      if p.sequence != e.nextSequenceSend {
        return Failed(InvalidPacket);
      }
      e := e.(nextSequenceSend := (e.nextSequenceSend + 1) % TWO_TO_THE_64);
      e := e.(commitments := e.commitments[p.sequence := CommitPacket(p)], history := e.history[p.sequence := CommitPacket(p)]);
      channels := channels[p.source := e];
      return Done;
    }

    method RecvPacket(p: Packet, proven: bool) returns (status: Status)
      modifies this`channels
      ensures var v := ChannelRecvPacket(old(View()), p, proven);
              match v
              case Verified(c) => status == Done && View() == c
              case NoOp => status == NoOpMsg && View() == old(View())
              case Refused(error) => status == Failed(error) && View() == old(View())
    {
      if p.dest !in channels {
        return Failed(ChannelNotFound);
      }
      var e := channels[p.dest];
      if e.closedAt.Some? {
        return Failed(ChannelClosed);
      }
      if p.source != e.counterparty {
        return Failed(InvalidPacket);
      }
      if !p.timeoutHeight.IsZero() && height.GTE(p.timeoutHeight) {
        return Failed(PacketTimeout);
      }
      if p.timeoutTimestamp != 0 && View().Time() >= p.timeoutTimestamp {
        return Failed(PacketTimeout);
      }
      if !proven {
        return Failed(InvalidProof);
      }
      if p.sequence in e.receipts {
        return NoOpMsg;
      }
      channels := channels[p.dest := e.(receipts := e.receipts[p.sequence := height])];
      return Done;
    }

    method WriteAcknowledgement(p: Packet, ack: Ack) returns (status: Status)
      modifies this`channels
      ensures var r := Chains.WriteAcknowledgement(old(View()), p, ack);
              if r.Ok? then status == Done && View() == r.value else status == Failed(r.error) && View() == old(View())
    {
      if p.dest !in channels {
        return Failed(ChannelNotFound);
      }
      var e := channels[p.dest];
      if e.closedAt.Some? {
        return Failed(ChannelClosed);
      }
      if p.sequence in e.acks {
        return Failed(AcknowledgementExists);
      }
      channels := channels[p.dest := e.(acks := e.acks[p.sequence := ack])];
      return Done;
    }

    method AcknowledgePacket(p: Packet, proven: bool) returns (status: Status)
      modifies this`channels
      ensures match Chains.AcknowledgePacket(old(View()), p, proven)
              case Verified(c) => status == Done && View() == c
              case NoOp => status == NoOpMsg && View() == old(View())
              case Refused(error) => status == Failed(error) && View() == old(View())
    {
      if p.source !in channels {
        return Failed(ChannelNotFound);
      }
      var e := channels[p.source];
      if e.closedAt.Some? {
        return Failed(ChannelClosed);
      }
      if p.dest != e.counterparty {
        return Failed(InvalidPacket);
      }
      if p.sequence !in e.commitments {
        return NoOpMsg;
      }
      if e.commitments[p.sequence] != CommitPacket(p) {
        return Failed(InvalidPacket);
      }
      if !proven {
        return Failed(InvalidProof);
      }
      channels := channels[p.source := e.(commitments := e.commitments - {p.sequence})];
      return Done;
    }

    /** Verification only: the commitment is still there afterwards. */
    method TimeoutPacket(p: Packet, proofHeight: Height, proofTime: Option<nat>, absent: bool) returns (status: Status)
      ensures match Chains.TimeoutPacket(View(), p, proofHeight, proofTime, absent)
              case Verified(c) => status == Done && View() == c
              case NoOp => status == NoOpMsg
              case Refused(error) => status == Failed(error)
    {
      if p.source !in channels {
        return Failed(ChannelNotFound);
      }
      var e := channels[p.source];
      if p.dest != e.counterparty {
        return Failed(InvalidPacket);
      }
      if proofTime.None? {
        return Failed(InvalidProof);
      }
      if (p.timeoutHeight.IsZero() || proofHeight.LT(p.timeoutHeight))
         && (p.timeoutTimestamp == 0 || proofTime.value < p.timeoutTimestamp) {
        return Failed(TimeoutNotReached);
      }
      if p.sequence !in e.commitments {
        return NoOpMsg;
      }
      if e.closedAt.Some? {
        return Failed(ChannelClosed);
      }
      if e.commitments[p.sequence] != CommitPacket(p) {
        return Failed(InvalidPacket);
      }
      return if absent then Done else Failed(InvalidProof);
    }

    method TimeoutOnClosePacket(p: Packet, closed: bool, absent: bool) returns (status: Status)
      ensures match Chains.TimeoutOnClosePacket(View(), p, closed, absent)
              case Verified(c) => status == Done && View() == c
              case NoOp => status == NoOpMsg
              case Refused(error) => status == Failed(error)
    {
      if p.source !in channels {
        return Failed(ChannelNotFound);
      }
      var e := channels[p.source];
      if p.dest != e.counterparty {
        return Failed(InvalidPacket);
      }
      if p.sequence !in e.commitments {
        return NoOpMsg;
      }
      if e.commitments[p.sequence] != CommitPacket(p) {
        return Failed(InvalidPacket);
      }
      return if closed && absent then Done else Failed(InvalidProof);
    }

    method TimeoutExecuted(p: Packet) returns (status: Status)
      modifies this`channels
      ensures if p.source in old(channels) then status == Done && View() == DeleteCommitment(old(View()), p)
              else status == Failed(ChannelNotFound) && View() == old(View())
    {
      if p.source !in channels {
        return Failed(ChannelNotFound);
      }
      var e := channels[p.source];
      channels := channels[p.source := e.(commitments := e.commitments - {p.sequence})];
      return Done;
    }

    // -------------------------------------------------------------- transfer keeper

    method DenomPath(d: Denom) returns (path: Result<string>)
      ensures path == FullDenomPath(View(), d)
    {
      match d
      case Plain(text) =>
        if HasPrefix(text, "ibc/") {
          return Err(InvalidDenom);
        }
        return Ok(text);
      case Ibc(digest, _) =>
        if digest !in traces {
          return Err(TraceNotFound);
        }
        return Ok(traces[digest].GetFullDenomPath());
    }

    /** Escrows the coins, or moves them to the module account and burns them there. */
    method TakeCoins(source: Hop, path: string, d: Denom, amount: nat, sender: Address) returns (status: Status)
      modifies this`bank
      ensures var r := LockOrBurn(old(bank), source, path, d, amount, sender);
              if r.Ok? then status == Done && bank == r.value else status == Failed(r.error)
    {
      hide HasPrefix, Bank.SendCoins, Bank.BurnCoins;
      if SenderChainIsSource(source, path) {
        var ok := SendCoins(sender, Escrow(source), d, amount);
        return if ok then Done else Failed(InsufficientFunds);
      }
      var ok := SendCoins(sender, MODULE_ACCOUNT, d, amount);
      if !ok {
        return Failed(InsufficientFunds);
      }
      var burnt := bank.BurnCoins(MODULE_ACCOUNT, d, amount);
      if burnt.None? {
        return Failed(Panic);
      }
      bank := burnt.value;
      status := Done;
    }

    /** Coins may already have moved when the channel layer refuses the packet; the transaction
        as a whole is then dropped. */
    method SendTransfer(m: MsgTransfer, sender: Address, client: ClientView) returns (status: Status)
      modifies this`bank, this`channels
      ensures var r := Chains.SendTransfer(old(View()), m, sender, client);
              if r.Ok? then status == Done && View() == r.value
              else status == Failed(r.error) && View() == old(View()).(bank := bank)
    {
      hide FullDenomPath, LockOrBurn, Chains.SendPacket;
      if !sendEnabled {
        return Failed(SendDisabled);
      }
      if m.source !in channels {
        return Failed(ChannelNotFound);
      }
      var e := channels[m.source];
      var path := DenomPath(m.token.denom);
      if path.Err? {
        return Failed(path.error);
      }
      status := TakeCoins(m.source, path.value, m.token.denom, m.token.amount, sender);
      if status.Failed? {
        return;
      }
      var data := PacketData(path.value, m.token.amount, Bech32(hrp, sender), m.receiver);
      status := SendPacket(Packet(e.nextSequenceSend, m.source, e.counterparty, m.timeoutHeight, m.timeoutTimestamp, Ics20(data)), client);
    }

    /** On an error the store may hold a new trace and minted coins that nobody received. */
    method OnRecvPacket(p: Packet, data: PacketData) returns (status: Status)
      modifies this`bank, this`traces
      ensures var r := Chains.OnRecvPacket(old(View()), p, data);
              if r.Ok? then status == Done && View() == r.value else status == Failed(r.error)
    {
      if !data.ValidBasic() {
        return Failed(InvalidMessage);
      }
      if !receiveEnabled {
        return Failed(ReceiveDisabled);
      }
      var receiver := View().DecodeAddress(data.receiver);
      if receiver.None? {
        return Failed(InvalidAddress);
      }
      if ReceiverChainIsSource(p.source, data.denom) {
        var unprefixed := data.denom[|p.source.Prefix()|..];
        var denom := Plain(unprefixed);
        var trace := ParseDenomTrace(unprefixed);
        if trace.path != "" {
          denom := trace.IBCDenom();
        }
        var ok := SendCoins(Escrow(p.dest), receiver.value, denom, data.amount);
        return if ok then Done else Failed(InsufficientFunds);
      }
      var trace := ParseDenomTrace(p.dest.Prefix() + data.denom);
      if trace.Hash() !in traces {
        traces := traces[trace.Hash() := trace];
      }
      bank := bank.MintCoins(MODULE_ACCOUNT, trace.IBCDenom(), data.amount);
      status := SendCoinsFromModuleToAccount(receiver.value, trace.IBCDenom(), data.amount);
    }

    method RefundPacketToken(p: Packet, data: PacketData) returns (status: Status)
      modifies this`bank
      ensures var r := Chains.RefundPacketToken(old(View()), p, data);
              if r.Ok? then status == Done && View() == r.value else status == Failed(r.error)
    {
      var denom := ParseDenomTrace(data.denom).IBCDenom();
      if data.amount < 0 {
        return Failed(Panic);
      }
      var sender := View().DecodeAddress(data.sender);
      if sender.None? {
        return Failed(InvalidAddress);
      }
      if SenderChainIsSource(p.source, data.denom) {
        var ok := SendCoins(Escrow(p.source), sender.value, denom, data.amount);
        return if ok then Done else Failed(InsufficientFunds);
      }
      bank := bank.MintCoins(MODULE_ACCOUNT, denom, data.amount);
      status := SendCoinsFromModuleToAccount(sender.value, denom, data.amount);
      if !status.Done? {
        status := Failed(Panic);
      }
    }

    // -------------------------------------------------------------- module callbacks

    method OnRecvPacketCallback(p: Packet) returns (ack: Ack)
      modifies this`bank, this`traces
      ensures ack == RecvCallback(old(View()), p).0
      ensures ack.ResultAck? ==> View() == RecvCallback(old(View()), p).1
    {
      ack := ResultAck;
      if p.payload.Opaque? {
        ack := ErrorAck(UndecodableData);
      }
      if ack.ResultAck? {
        var status := OnRecvPacket(p, p.payload.data);
        if status.Failed? {
          ack := ErrorAck(status.error);
        }
      }
    }

    method OnAcknowledgementPacket(p: Packet, ack: Ack) returns (status: Status)
      modifies this`bank
      ensures var r := AckCallback(old(View()), p, ack);
              if r.Ok? then status == Done && View() == r.value else status == Failed(r.error)
    {
      if p.payload.Opaque? {
        return Failed(UndecodableData);
      }
      if ack.ErrorAck? {
        status := RefundPacketToken(p, p.payload.data);
      } else {
        status := Done;
      }
    }

    method OnTimeoutPacket(p: Packet) returns (status: Status)
      modifies this`bank
      ensures var r := TimeoutCallback(old(View()), p);
              if r.Ok? then status == Done && View() == r.value else status == Failed(r.error)
    {
      if p.payload.Opaque? {
        return Failed(UndecodableData);
      }
      status := RefundPacketToken(p, p.payload.data);
    }

    // -------------------------------------------------------------- message server

    /** `RecvPacket`: one cached context for verification, one for the callback, the second
        written only for a success acknowledgement. */
    method HandleRecvPacket(p: Packet, proven: bool) returns (status: Status, ghost ran: bool)
      modifies this
      ensures match RecvPacketMsg(old(View()), p, proven)
              case Rejected(error) => status == Failed(error)
              case Skipped => status == Done && !ran && View() == old(View())
              case Executed(c, ack) => status == Done && ran && View() == c
      ensures ran && status.Done? && !RecvPacketMsg(old(View()), p, proven).info.ResultAck? ==> bank == old(bank) && traces == old(traces)
    {
      hide Chain.Time, RecvCallback, Chains.WriteAcknowledgement, ChannelRecvPacket;
      ran := false;
      var cache := CacheContext();
      status := cache.RecvPacket(p, proven);
      match status {
        case Done => Write(cache);
        case NoOpMsg => return Done, false;
        case Failed(_) => return status, false;
      }
      ghost var verified := View();
      cache := CacheContext();
      var ack := cache.OnRecvPacketCallback(p);
      ran := true;
      if ack.ResultAck? {
        Write(cache);
      }
      status := WriteAcknowledgement(p, ack);
    }

    method HandleAcknowledgement(p: Packet, ack: Ack, proven: bool) returns (status: Status, ghost ran: bool)
      modifies this
      ensures match AcknowledgementMsg(old(View()), p, ack, proven)
              case Rejected(error) => status == Failed(error)
              case Skipped => status == Done && !ran && View() == old(View())
              case Executed(c, _) => status == Done && ran && View() == c
    {
      hide AckCallback, Chains.AcknowledgePacket;
      ran := false;
      var cache := CacheContext();
      status := cache.AcknowledgePacket(p, proven);
      match status {
        case Done => Write(cache);
        case NoOpMsg => return Done, false;
        case Failed(_) => return status, false;
      }
      ran := true;
      status := OnAcknowledgementPacket(p, ack);
    }

    /** What `Timeout` and `TimeoutOnClose` do once verification has succeeded. */
    method ExecuteTimeout(p: Packet) returns (status: Status)
      modifies this
      ensures match TimeoutMsg(Verified(old(View())), p)
              case Rejected(error) => status == Failed(error)
              case Executed(c, _) => status == Done && View() == c
    {
      hide TimeoutCallback, DeleteCommitment;
      status := OnTimeoutPacket(p);
      if status.Failed? {
        return;
      }
      status := TimeoutExecuted(p);
    }

    method HandleTimeout(p: Packet, proofHeight: Height, proofTime: Option<nat>, absent: bool) returns (status: Status, ghost ran: bool)
      modifies this
      ensures match TimeoutMsg(Chains.TimeoutPacket(old(View()), p, proofHeight, proofTime, absent), p)
              case Rejected(error) => status == Failed(error)
              case Skipped => status == Done && !ran && View() == old(View())
              case Executed(c, _) => status == Done && ran && View() == c
    {
      hide TimeoutCallback, DeleteCommitment, Chains.TimeoutPacket;
      ran := false;
      var cache := CacheContext();
      status := cache.TimeoutPacket(p, proofHeight, proofTime, absent);
      match status {
        case Done => Write(cache);
        case NoOpMsg => return Done, false;
        case Failed(_) => return status, false;
      }
      ran := true;
      status := ExecuteTimeout(p);
    }

    method HandleTimeoutOnClose(p: Packet, closed: bool, absent: bool) returns (status: Status, ghost ran: bool)
      modifies this
      ensures match TimeoutMsg(Chains.TimeoutOnClosePacket(old(View()), p, closed, absent), p)
              case Rejected(error) => status == Failed(error)
              case Skipped => status == Done && !ran && View() == old(View())
              case Executed(c, _) => status == Done && ran && View() == c
    {
      hide TimeoutCallback, DeleteCommitment, Chains.TimeoutOnClosePacket;
      ran := false;
      var cache := CacheContext();
      status := cache.TimeoutOnClosePacket(p, closed, absent);
      match status {
        case Done => Write(cache);
        case NoOpMsg => return Done, false;
        case Failed(_) => return status, false;
      }
      ran := true;
      status := ExecuteTimeout(p);
    }

    /** A transaction of one message: its changes are kept only if the handler succeeds. `ran`
        tells whether an application callback was invoked and committed. */
    method Deliver(m: Message) returns (status: Status, ghost ran: bool)
      modifies this
      ensures match Effect(old(View()), m)
              case Rejected(error) => status == Failed(error) && View() == old(View())
              case Skipped => status == Done && !ran && View() == old(View())
              case Executed(c, _) => status == Done && ran && View() == c
    {
      hide RecvPacketMsg, AcknowledgementMsg, TimeoutMsg, Chains.TimeoutPacket, Chains.TimeoutOnClosePacket;
      var cache := CacheContext();
      match m {
        case MsgRecvPacket(p, proven) => status, ran := cache.HandleRecvPacket(p, proven);
        case MsgAcknowledgement(p, ack, proven) => status, ran := cache.HandleAcknowledgement(p, ack, proven);
        case MsgTimeout(p, h, t, absent) => status, ran := cache.HandleTimeout(p, h, t, absent);
        case MsgTimeoutOnClose(p, closed, absent) => status, ran := cache.HandleTimeoutOnClose(p, closed, absent);
      }
      if status.Done? {
        Write(cache);
      }
    }

    method DeliverTransfer(m: MsgTransfer, client: ClientView) returns (status: Status)
      modifies this
      ensures var r := TransferMsg(old(View()), m, client);
              if r.Ok? then status == Done && View() == r.value else status == Failed(r.error) && View() == old(View())
    {
      hide Chains.SendTransfer;
      if !MsgTransferValidBasic(m) {
        return Failed(InvalidMessage);
      }
      var sender := View().DecodeAddress(m.sender);
      if sender.None? {
        return Failed(InvalidAddress);
      }
      var cache := CacheContext();
      status := cache.SendTransfer(m, sender.value, client);
      if status.Done? {
        Write(cache);
      }
    }
  }
}
