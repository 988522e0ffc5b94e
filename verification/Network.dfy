/** Any number of chains joined by any number of transfer channels, driven step by step by users,
    relayers and the passage of blocks. A run is any sequence of steps; relayed messages may be
    repeated, reordered, delayed or made up. */
module Network {
  import opened Basics
  import opened Strings
  import opened Denoms
  import opened HopStack
  import opened Heights
  import opened Totals
  import opened Banking
  import opened Chains

  /** A channel end: its chain and its port and channel identifiers there. */
  datatype End = End(chain: string, id: Hop)

  datatype Event = Credited(sender: End, sequence: nat) | Refunded(sender: End, sequence: nat)

  datatype GiftKey = GiftKey(chain: string, to: Address, denom: Denom)

  /** `gifts` counts what escrow addresses hold other than by `SendTransfer`, and `log` the
      callbacks that paid a receiver or paid a sender back. Both are bookkeeping: no handler reads
      them. */
  datatype Net = Net(peers: map<End, End>, chains: map<string, Chain>, gifts: map<GiftKey, nat>, log: multiset<Event>)
  {
    /** Channel ends come in pairs that name each other. */
    ghost predicate Wired() {
      forall e :: e in peers ==> WiredEnd(e)
    }

    predicate WiredEnd(e: End) {
      && e in peers && peers[e] in peers && peers[peers[e]] == e && peers[e] != e
      && e.chain in chains && e.id in chains[e.chain].channels && chains[e.chain].channels[e.id].counterparty == peers[e].id
    }

    ghost predicate Named() {
      forall e :: e in peers ==> e.id.Valid()
    }

    /** Chains have no channel ends besides those in `peers`. */
    ghost predicate Complete() {
      forall c, id :: c in chains && id in chains[c].channels ==> End(c, id) in peers
    }

    function At(e: End): ChannelEnd
      requires e.chain in chains && e.id in chains[e.chain].channels
    {
      chains[e.chain].channels[e.id]
    }

    function Gift(c: string, to: Address, d: Denom): nat {
      Get(gifts, GiftKey(c, to, d))
    }

    function AddGift(c: string, to: Address, d: Denom, amount: nat): Net {
      if to.Escrow? then this.(gifts := gifts[GiftKey(c, to, d) := Gift(c, to, d) + amount]) else this
    }

    function WithChain(c: string, chain: Chain): Net {
      this.(chains := chains[c := chain])
    }

    function Logged(e: Event): Net {
      this.(log := log + multiset{e})
    }
  }

  datatype Step =
    | Transfer(chain: string, msg: MsgTransfer, client: ClientView)
    | Recv(chain: string, packet: Packet)
    | Acknowledge(chain: string, packet: Packet, ack: Ack)
    | Timeout(chain: string, packet: Packet, proofHeight: Height)
    | TimeoutOnClose(chain: string, packet: Packet, proofHeight: Height)
    | Pay(chain: string, from: Address, to: Address, denom: Denom, amount: nat)
    | Inflate(chain: string, to: Address, text: string, amount: nat)
    | Deflate(chain: string, from: Address, denom: Denom, amount: nat)
    | SetParams(chain: string, send: bool, receive: bool)
    | NextBlock(chain: string, height: Height, time: nat)
    | Close(chain: string, id: Hop)

  // ---------------------------------------------------------------- what honest proofs show

  /** The sender stored this commitment at some height. */
  predicate CommitmentShown(n: Net, p: Packet, receiver: End)
    requires n.Wired()
  {
    receiver in n.peers &&
    var s := n.At(n.peers[receiver]);
    p.sequence in s.history && s.history[p.sequence] == CommitPacket(p)
  }

  /** The receiver stored this acknowledgement. */
  predicate AckShown(n: Net, p: Packet, ack: Ack, sender: End)
    requires n.Wired()
  {
    sender in n.peers &&
    var r := n.At(n.peers[sender]);
    p.sequence in r.acks && r.acks[p.sequence] == ack
  }

  /** The receiver had no receipt in the state that its header at `h` commits to, which is the
      state after the blocks below `h`. */
  predicate AbsenceShown(n: Net, p: Packet, h: Height, sender: End)
    requires n.Wired()
  {
    sender in n.peers &&
    var r := n.At(n.peers[sender]);
    h in n.chains[n.peers[sender].chain].blockTimes && !(p.sequence in r.receipts && r.receipts[p.sequence].LT(h))
  }

  predicate CloseShown(n: Net, h: Height, sender: End)
    requires n.Wired()
  {
    sender in n.peers &&
    var r := n.At(n.peers[sender]);
    h in n.chains[n.peers[sender].chain].blockTimes && r.closedAt.Some? && r.closedAt.value.LT(h)
  }

  function ProofTime(n: Net, h: Height, sender: End): Option<nat>
    requires n.Wired()
  {
    if sender in n.peers && h in n.chains[n.peers[sender].chain].blockTimes
    then Some(n.chains[n.peers[sender].chain].blockTimes[h]) else None
  }

  // ---------------------------------------------------------------- steps and runs

  function Settle(n: Net, c: string, p: Packet, o: Outcome<bool>): Net {
    match o
    case Executed(chain, refunded) =>
      var m := n.WithChain(c, chain);
      if refunded then m.Logged(Refunded(End(c, p.source), p.sequence)) else m
    case _ => n
  }

  function ApplyRecv(n: Net, c: string, p: Packet): Net
    requires n.Wired() && c in n.chains
  {
    var receiver := End(c, p.dest);
    match RecvPacketMsg(n.chains[c], p, CommitmentShown(n, p, receiver))
    case Executed(chain, ack) =>
      var m := n.WithChain(c, chain);
      if ack.ResultAck? && receiver in n.peers && p.payload.Ics20? && p.payload.data.receiver.Bech32? && p.payload.data.amount >= 0 then
        var data := p.payload.data;
        m.Logged(Credited(n.peers[receiver], p.sequence))
        .AddGift(c, data.receiver.address, CoinOf(ReceivedPath(p.source, p.dest, data.denom)), data.amount)
      else m
    case _ => n
  }

  function ApplyTimeout(n: Net, c: string, p: Packet, h: Height): Outcome<bool>
    requires n.Wired() && c in n.chains
  {
    var sender := End(c, p.source);
    TimeoutMsg(TimeoutPacket(n.chains[c], p, h, ProofTime(n, h, sender), AbsenceShown(n, p, h, sender)), p)
  }

  function ApplyTimeoutOnClose(n: Net, c: string, p: Packet, h: Height): Outcome<bool>
    requires n.Wired() && c in n.chains
  {
    var sender := End(c, p.source);
    TimeoutMsg(TimeoutOnClosePacket(n.chains[c], p, CloseShown(n, h, sender), AbsenceShown(n, p, h, sender)), p)
  }

  /** The channel end whose prefix a full path starts with, if it starts with one at all. */
  function TopHop(path: string): Hop {
    var parts := Split(path, '/');
    if |parts| >= 3 then Hop(parts[0], parts[1]) else Hop("", "")
  }

  /** Vouchers burnt by other modules leave a surplus in the escrow that backed them, which is
      counted as a gift to it. */
  function AddSurplus(n: Net, c: string, d: Denom, amount: nat): Net {
    if d.Plain? || d.spelling.Alternate? then n
    else
      var path := d.digest.preimage;
      var id := TopHop(path);
      if End(c, id) in n.peers && HasPrefix(path, id.Prefix()) && !LosesSlash(path[|id.Prefix()|..]) then
        var peer := n.peers[End(c, id)];
        n.AddGift(peer.chain, Escrow(peer.id), CoinOf(path[|id.Prefix()|..]), amount)
      else n
  }

  /** A step that the chain rejects changes nothing. Users (`User`) sign transfers; users and modules
      pay and burn; nobody holds a key to an escrow address, and only native coins are minted outside
      the protocol. */
  function Apply(n: Net, s: Step): Net
    requires n.Wired()
  {
    if s.chain !in n.chains then n
    else
      var c := n.chains[s.chain];
      match s
      case Transfer(_, msg, client) =>
        if msg.sender.Bech32? && msg.sender.address.User? then
          var r := TransferMsg(c, msg, client);
          if r.Ok? then n.WithChain(s.chain, r.value) else n
        else n
      case Recv(_, p) => ApplyRecv(n, s.chain, p)
      case Acknowledge(_, p, ack) =>
        Settle(n, s.chain, p, AcknowledgementMsg(c, p, ack, AckShown(n, p, ack, End(s.chain, p.source))))
      case Timeout(_, p, h) => Settle(n, s.chain, p, ApplyTimeout(n, s.chain, p, h))
      case TimeoutOnClose(_, p, h) => Settle(n, s.chain, p, ApplyTimeoutOnClose(n, s.chain, p, h))
      case Pay(_, from, to, d, amount) =>
        var r := c.bank.SendCoins(from, to, d, amount);
        if !from.Escrow? && r.Some? then n.WithChain(s.chain, c.(bank := r.value)).AddGift(s.chain, to, d, amount) else n
      case Inflate(_, to, text, amount) =>
        n.WithChain(s.chain, c.(bank := c.bank.MintCoins(to, Plain(text), amount))).AddGift(s.chain, to, Plain(text), amount)
      case Deflate(_, from, d, amount) =>
        var r := c.bank.BurnCoins(from, d, amount);
        if !from.Escrow? && r.Some? then AddSurplus(n.WithChain(s.chain, c.(bank := r.value)), s.chain, d, amount) else n
      case SetParams(_, send, receive) => n.WithChain(s.chain, c.(sendEnabled := send, receiveEnabled := receive))
      case NextBlock(_, h, t) =>
        if c.height.LT(h) && c.Time() <= t then n.WithChain(s.chain, c.(height := h, blockTimes := c.blockTimes[h := t])) else n
      case Close(_, id) =>
        if id in c.channels && c.channels[id].closedAt.None?
        then n.WithChain(s.chain, c.WithEnd(id, c.channels[id].(closedAt := Some(c.height)))) else n
  }

  // ---------------------------------------------------------------- the balance sheet

  /** The amounts of path `path` that are committed by the sender and were not credited by the
      receiver: packets not yet received, and packets refused but not yet refunded. */
  ghost function Owing(commitments: map<nat, Commitment>, acks: map<nat, Ack>, path: string): map<nat, nat> {
    map k | k in commitments && Carries(commitments[k], path) && !(k in acks && acks[k].ResultAck?) :: Amount(commitments[k])
  }

  predicate Carries(c: Commitment, path: string) {
    c.payload.Ics20? && c.payload.data.denom == path
  }

  function Amount(c: Commitment): nat {
    if c.payload.Ics20? && c.payload.data.amount >= 0 then c.payload.data.amount else 0
  }

  ghost function InFlight(n: Net, e: End, path: string): nat
    requires n.Wired() && e in n.peers
  {
    Total(Owing(n.At(e).commitments, n.At(n.peers[e]).acks, path))
  }

  function Escrowed(n: Net, e: End, path: string): nat
    requires n.Wired() && e in n.peers
  {
    n.chains[e.chain].bank.Balance(Escrow(e.id), CoinOf(path))
  }

  /** Supply, on the other chain, of the voucher for `path` sent through this end. */
  function Circulating(n: Net, e: End, path: string): nat
    requires n.Wired() && e in n.peers
  {
    n.chains[n.peers[e].chain].bank.Supply(CoinOf(n.peers[e].id.Prefix() + path))
  }

  /** Escrow backs exactly the vouchers in circulation plus what is in flight in either direction,
      once gifts are set aside. */
  ghost predicate Backed(n: Net, e: End, path: string)
    requires n.Wired() && e in n.peers
  {
    Escrowed(n, e, path) ==
    n.Gift(e.chain, Escrow(e.id), CoinOf(path)) + Circulating(n, e, path)
    + InFlight(n, n.peers[e], n.peers[e].id.Prefix() + path)
    + if SenderChainIsSource(e.id, path) then InFlight(n, e, path) else 0
  }

  // ---------------------------------------------------------------- invariants

  ghost predicate GoodTrace(t: DenomTrace) {
    t.path != "" && !LosesSlash(t.GetFullDenomPath())
  }

  ghost predicate ChainOk(c: Chain) {
    && c.bank.Conserved()
    && (forall a, h, k :: c.bank.Balance(a, Ibc(h, Alternate(k))) == 0)
    && (forall h :: h in c.traces ==> c.traces[h].Hash() == h && GoodTrace(c.traces[h]))
    && (forall h :: c.bank.Supply(Ibc(h, Canonical)) > 0 ==> h in c.traces)
    && (forall a :: a in c.blocked ==> !a.User?)
    && c.height in c.blockTimes
    && (forall h :: h in c.blockTimes ==> c.height.GTE(h))
    && (forall h, k :: h in c.blockTimes && k in c.blockTimes && h.LT(k) ==> c.blockTimes[h] <= c.blockTimes[k])
  }

  /** A packet written by an honest sending end. */
  ghost predicate HonestPayload(c: Chain, source: Hop, payload: Payload) {
    && payload.Ics20?
    && payload.data.amount > 0
    && payload.data.sender.Bech32? && payload.data.sender.hrp == c.hrp && payload.data.sender.address.User?
    && !LosesSlash(payload.data.denom) && payload.data.denom != DENOM_PREFIX
    && (ReceiverChainIsSource(source, payload.data.denom) ==> Sha256(payload.data.denom) in c.traces)
  }

  /** The receipt was written before the packet's timeout and before the channel closed. */
  predicate Timely(c: Chain, r: ChannelEnd, m: Commitment, h: Height) {
    && h in c.blockTimes
    && (m.timeoutHeight.IsZero() || h.LT(m.timeoutHeight))
    && (m.timeoutTimestamp == 0 || c.blockTimes[h] < m.timeoutTimestamp)
    && (r.closedAt.Some? ==> !r.closedAt.value.LT(h))
  }

  /** The receiving end will refuse the packet from now on. */
  predicate Expired(c: Chain, r: ChannelEnd, m: Commitment) {
    || (!m.timeoutHeight.IsZero() && c.height.GTE(m.timeoutHeight))
    || (m.timeoutTimestamp != 0 && c.Time() >= m.timeoutTimestamp)
    || r.closedAt.Some?
  }

  /** The packet's coins were paid out on the receiving chain. */
  predicate Delivered(r: ChannelEnd, k: nat) {
    k in r.acks && r.acks[k].ResultAck?
  }

  /** The packet's coins were paid back on the sending chain. */
  predicate PaidBack(s: ChannelEnd, r: ChannelEnd, k: nat) {
    k in s.history && k !in s.commitments && !Delivered(r, k)
  }

  ghost predicate StoresAgree(s: ChannelEnd, r: ChannelEnd) {
    && (forall k :: k in s.commitments ==> k in s.history && s.commitments[k] == s.history[k])
    && s.nextSequenceSend < TWO_TO_THE_64
    && (forall k :: k in s.history ==> k < s.nextSequenceSend || s.nextSequenceSend == 0)
    && r.receipts.Keys == r.acks.Keys
    && (forall k :: k in r.receipts ==> k in s.history)
  }

  /** The packets sent from `e`: the sender's store `s` on chain `cs`, the receiver's store `r` on
      chain `cr`, and the log. */
  ghost predicate PacketsOk(s: ChannelEnd, r: ChannelEnd, cs: Chain, cr: Chain, e: End, log: multiset<Event>) {
    && StoresAgree(s, r)
    && (forall k :: k in r.receipts ==> Timely(cr, r, s.history[k], r.receipts[k]))
    && (forall k :: k in s.history && k !in s.commitments ==> k in r.acks || Expired(cr, r, s.history[k]))
    && (forall k :: k in s.history ==> HonestPayload(cs, e.id, s.history[k].payload))
    && (forall k :: log[Credited(e, k)] == if Delivered(r, k) then 1 else 0)
    && (forall k :: log[Refunded(e, k)] == if PaidBack(s, r, k) then 1 else 0)
  }

  ghost predicate ChannelOk(n: Net, e: End)
    requires n.Wired() && e in n.peers
  {
    PacketsOk(n.At(e), n.At(n.peers[e]), n.chains[e.chain], n.chains[n.peers[e].chain], e, n.log)
  }

  /** Paths that never leave through the end `id` to become vouchers on the other side: they came
      from there, or they are the reserved word, which no transfer accepts. */
  predicate Unmintable(id: Hop, path: string) {
    HasPrefix(path, id.Prefix()) || path == DENOM_PREFIX
  }

  /** No voucher of the path exists on the other chain, and none is on its way back. */
  ghost predicate Unminted(n: Net, e: End, path: string)
    requires n.Wired() && e in n.peers
  {
    Circulating(n, e, path) == 0 && InFlight(n, n.peers[e], n.peers[e].id.Prefix() + path) == 0
  }

  ghost predicate Inv(n: Net) {
    && n.Wired() && n.Named() && n.Complete()
    && (forall c :: c in n.chains ==> ChainOk(n.chains[c]))
    && (forall e :: e in n.peers ==> ChannelOk(n, e))
    && (forall e, p :: e in n.peers && !LosesSlash(p) ==> Backed(n, e, p))
    && (forall e, p :: e in n.peers && Unmintable(e.id, p) ==> Unminted(n, e, p))
  }
}
