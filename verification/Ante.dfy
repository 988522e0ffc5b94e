/** The mempool's redundancy check (modules/core/ante/ante.go): which transactions it turns away,
    and that turning them away costs nobody anything. */
module Ante {
  import opened Basics
  import opened Heights
  import opened Chains
  import opened Keepers
  import opened Acceptance

  datatype TxMsg = PacketMsg(message: Message) | UpdateClient | OtherMsg

  /** What the check looks up for a packet message: a receipt, or the absence of a commitment. */
  predicate Redundant(c: Chain, m: Message) {
    var p := m.packet;
    if m.MsgRecvPacket? then p.dest in c.channels && p.sequence in c.channels[p.dest].receipts
    else !(p.source in c.channels && p.sequence in c.channels[p.source].commitments)
  }

  /** Only packet messages and client updates, at least one packet message, all of them redundant. */
  ghost predicate OnlyRedundant(c: Chain, msgs: seq<TxMsg>) {
    && (forall i :: 0 <= i < |msgs| ==> !msgs[i].OtherMsg?)
    && (exists i :: 0 <= i < |msgs| && msgs[i].PacketMsg?)
    && (forall i :: 0 <= i < |msgs| && msgs[i].PacketMsg? ==> Redundant(c, msgs[i].message))
  }

  /** The loop of `AnteHandle`: counts packet messages and redundant ones, and gives up at the
      first message of another kind. */
  method AnteHandle(c: Chain, msgs: seq<TxMsg>, checkTx: bool, recheckTx: bool, simulate: bool) returns (rejected: bool)
    ensures rejected <==> (checkTx || recheckTx) && !simulate && OnlyRedundant(c, msgs)
  {
    hide Redundant;
    if (checkTx || recheckTx) && !simulate {
      var redundancies, packetMsgs := 0, 0;
      for n := 0 to |msgs|
        invariant 0 <= redundancies <= packetMsgs
        invariant forall i :: 0 <= i < n ==> !msgs[i].OtherMsg?
        invariant packetMsgs > 0 <==> exists i :: 0 <= i < n && msgs[i].PacketMsg?
        invariant redundancies == packetMsgs <==> forall i :: 0 <= i < n && msgs[i].PacketMsg? ==> Redundant(c, msgs[i].message)
      {
        match msgs[n] {
          case PacketMsg(m) =>
            if Redundant(c, m) {
              redundancies := redundancies + 1;
            }
            packetMsgs := packetMsgs + 1;
          case UpdateClient =>
          case OtherMsg =>
            return false;
        }
      }
      if redundancies == packetMsgs && packetMsgs > 0 {
        return true;
      }
    }
    return false;
  }

  /** A redundant message does not reach the application: it is a no-op or refused. */
  lemma RedundantDoesNothing(c: Chain, m: Message)
    requires Redundant(c, m)
    ensures !Effect(c, m).Executed?
  {
    hide RecvCallback, AckCallback, TimeoutCallback;
  }

  /** The callbacks that the packet messages of a transaction invoke when executed one after the
      other from chain `c`; the first refused message ends the transaction. */
  function Callbacks(c: Chain, msgs: seq<TxMsg>): nat
    decreases |msgs|
  {
    if msgs == [] then 0
    else if !msgs[0].PacketMsg? then Callbacks(c, msgs[1..])
    else
      match Effect(c, msgs[0].message)
      case Executed(d, _) => 1 + Callbacks(d, msgs[1..])
      case Skipped => Callbacks(c, msgs[1..])
      case Rejected(_) => 0
  }

  lemma {:induction false} NoCallbacks(c: Chain, msgs: seq<TxMsg>)
    requires forall i :: 0 <= i < |msgs| && msgs[i].PacketMsg? ==> Redundant(c, msgs[i].message)
    ensures Callbacks(c, msgs) == 0
    decreases |msgs|
  {
    hide Effect, Redundant;
    if msgs != [] {
      NoCallbacks(c, msgs[1..]);
      if msgs[0].PacketMsg? {
        RedundantDoesNothing(c, msgs[0].message);
      }
    }
  }

  /** Whatever proofs its messages carry, a transaction that the check rejects would invoke no
      application callback at all. */
  lemma RejectedInvokesNothing(c: Chain, msgs: seq<TxMsg>)
    requires OnlyRedundant(c, msgs)
    ensures Callbacks(c, msgs) == 0
  {
    NoCallbacks(c, msgs);
  }

  /** Conversely, a packet message that would be executed is never counted as redundant, so a
      transaction whose first message does something is let through. */
  lemma UsefulIsLetThrough(c: Chain, msgs: seq<TxMsg>)
    requires msgs != [] && msgs[0].PacketMsg? && Effect(c, msgs[0].message).Executed?
    ensures !OnlyRedundant(c, msgs) && Callbacks(c, msgs) > 0
  {
    hide Effect, Redundant;
    if Redundant(c, msgs[0].message) {
      RedundantDoesNothing(c, msgs[0].message);
    }
  }

  /** What counts as redundant, kind by kind: a receive with a receipt, and an acknowledgement, a timeout
      or a timeout on close without a commitment, be there a channel or not. */
  lemma RedundantExactly(c: Chain, p: Packet, ack: Ack, h: Height, t: Option<nat>, x: bool, y: bool)
    ensures Redundant(c, MsgRecvPacket(p, x)) <==> exists k :: k == p.dest && k in c.channels && p.sequence in c.channels[k].receipts
    ensures var settled := forall k :: k == p.source && k in c.channels ==> p.sequence !in c.channels[k].commitments;
            && (Redundant(c, MsgAcknowledgement(p, ack, x)) <==> settled)
            && (Redundant(c, MsgTimeout(p, h, t, x)) <==> settled)
            && (Redundant(c, MsgTimeoutOnClose(p, x, y)) <==> settled)
  {
  }

  /** Every message that the handlers skip, of whichever kind, counts as redundant. */
  lemma SkippedIsRedundant(c: Chain, m: Message)
    requires Effect(c, m).Skipped?
    ensures Redundant(c, m)
  {
    hide RecvPacketMsg, AcknowledgementMsg, TimeoutMsg, TimeoutPacket, TimeoutOnClosePacket, GivenBack, Reached;
    match m
    case MsgRecvPacket(p, proven) =>
      SkippedReceive(c, p, proven);
    case MsgAcknowledgement(p, ack, proven) =>
      AcknowledgementMsgIff(c, p, ack, proven);
    case MsgTimeout(p, h, t, absent) =>
      TimeoutMsgIff(c, p, h, t, absent);
    case MsgTimeoutOnClose(p, closed, absent) =>
      TimeoutOnCloseMsgIff(c, p, closed, absent);
  }

  lemma SkippedReceive(c: Chain, p: Packet, proven: bool)
    requires RecvPacketMsg(c, p, proven).Skipped?
    ensures p.dest in c.channels && p.sequence in c.channels[p.dest].receipts
  {
    hide RecvCallback;
  }

  /** In check mode, a transaction of packet and update messages with at least one packet message, all of
      which the handlers would skip from this state, is rejected. */
  lemma SkippedIsRejected(c: Chain, msgs: seq<TxMsg>)
    requires forall i :: 0 <= i < |msgs| ==> msgs[i].UpdateClient? || (msgs[i].PacketMsg? && Effect(c, msgs[i].message).Skipped?)
    requires exists i :: 0 <= i < |msgs| && msgs[i].PacketMsg?
    ensures OnlyRedundant(c, msgs)
  {
    hide Effect, Redundant;
    forall i | 0 <= i < |msgs| && msgs[i].PacketMsg?
      ensures Redundant(c, msgs[i].message)
    {
      SkippedIsRedundant(c, msgs[i].message);
    }
  }
}
