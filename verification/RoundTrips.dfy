/** Sending a token out over any number of channels and back the same way restores every balance
    and every supply on every chain, and nothing can go wrong on the way. */
module RoundTrips {
  import opened Basics
  import opened Strings
  import opened Denoms
  import opened HopStack
  import opened Heights
  import opened Banking
  import opened Chains
  import opened Network
  import opened BalanceSheet
  import opened Safety
  import opened Runs
  import opened Guarantees
  import opened Refunds
  import Packets

  /** One complete transfer: the token with this path leaves through `end`. */
  datatype Trip = Trip(end: End, path: string, from: string, to: string)

  /** The same on every trip of a journey: how much, which timeout, what light clients report. */
  datatype Terms = Terms(amount: nat, timeout: nat, client: ClientView)

  function TripMessage(n: Net, t: Trip, terms: Terms): MsgTransfer
    requires n.Wired() && t.end in n.peers
  {
    MsgTransfer(t.end.id, Coin(CoinOf(t.path), terms.amount), Bech32(n.chains[t.end.chain].hrp, User(t.from)),
                Bech32(n.chains[n.peers[t.end].chain].hrp, User(t.to)), Height(0, 0), terms.timeout)
  }

  /** The receiving half of a trip: a `Recv` step that yields a success acknowledgement. */
  ghost function Arrive(n: Net, c: string, p: Packet): (r: Option<Net>)
    requires Inv(n)
    ensures r.Some? ==> Inv(r.value)
  {
    hide Inv, Apply, RecvPacketMsg, CommitmentShown;
    if c !in n.chains then None
    else
      InvParts(n, c);
      var o := RecvPacketMsg(n.chains[c], p, CommitmentShown(n, p, End(c, p.dest)));
      StepKeepsInv(n, Recv(c, p));
      if o.Executed? && o.info.ResultAck? then Some(Apply(n, Recv(c, p))) else None
  }

  /** A trip: a `Transfer` step that is accepted and the arrival of its packet. */
  ghost function Move(n: Net, t: Trip, terms: Terms): (r: Option<Net>)
    requires Inv(n)
    ensures r.Some? ==> Inv(r.value)
  {
    hide Inv, Apply, TransferMsg;
    if t.end !in n.peers then None
    else
      InvAt(n, t.end);
      var c, msg := n.chains[t.end.chain], TripMessage(n, t, terms);
      if TransferMsg(c, msg, terms.client).Err? then None
      else
        TransferLeaves(c, msg, terms.client);
        var s := Transfer(t.end.chain, msg, terms.client);
        StepKeepsInv(n, s);
        Arrive(Apply(n, s), n.peers[t.end].chain, SentPacket(c, msg))
  }

  ghost function Travel(n: Net, trips: seq<Trip>, terms: Terms): (r: Option<Net>)
    requires Inv(n)
    ensures r.Some? ==> Inv(r.value)
    decreases |trips|
  {
    hide Inv, Move;
    if trips == [] then Some(n)
    else
      var m := Move(n, trips[0], terms);
      if m.None? then None else Travel(m.value, trips[1..], terms)
  }

  // ---------------------------------------------------------------- routes

  /** A leg of a route: the end through which it leaves, the account it leaves from, the account
      on the next chain. */
  datatype Leg = Leg(out: End, from: string, to: string)

  function PathAfter(peers: map<End, End>, leg: Leg, path: string): string
    requires leg.out in peers
  {
    ReceivedPath(leg.out.id, peers[leg.out].id, path)
  }

  /** Each leg starts where the one before ended, on the account that one paid; the first on
      `chain` and `user`. Legs may lead away from the token's source or back to it. */
  ghost predicate Route(peers: map<End, End>, route: seq<Leg>, chain: string, user: string)
    decreases |route|
  {
    route != [] ==>
      && route[0].out in peers && route[0].out.chain == chain && route[0].from == user
      && Route(peers, route[1..], peers[route[0].out].chain, route[0].to)
  }

  function Outward(peers: map<End, End>, route: seq<Leg>, path: string): seq<Trip>
    requires forall i :: 0 <= i < |route| ==> route[i].out in peers
  {
    if route == [] then []
    else [Trip(route[0].out, path, route[0].from, route[0].to)] + Outward(peers, route[1..], PathAfter(peers, route[0], path))
  }

  function Homeward(peers: map<End, End>, route: seq<Leg>, path: string): seq<Trip>
    requires forall i :: 0 <= i < |route| ==> route[i].out in peers
  {
    if route == [] then []
    else
      var q := PathAfter(peers, route[0], path);
      Homeward(peers, route[1..], q) + [Trip(peers[route[0].out], q, route[0].to, route[0].from)]
  }

  lemma {:induction false} RouteEnds(peers: map<End, End>, route: seq<Leg>, chain: string, user: string)
    requires Route(peers, route, chain, user)
    ensures forall i :: 0 <= i < |route| ==> route[i].out in peers
    decreases |route|
  {
    if route != [] {
      RouteEnds(peers, route[1..], peers[route[0].out].chain, route[0].to);
      assert forall i :: 1 <= i < |route| ==> route[i] == route[1..][i - 1];
    }
  }

  // ---------------------------------------------------------------- what a trip moves

  function Bal(n: Net, c: string, x: Address, y: Denom): nat {
    if c in n.chains then n.chains[c].bank.Balance(x, y) else 0
  }

  function Sup(n: Net, c: string, y: Denom): nat {
    if c in n.chains then n.chains[c].bank.Supply(y) else 0
  }

  ghost predicate SameLedger(n: Net, m: Net) {
    && (forall c, x, y :: Bal(m, c, x, y) == Bal(n, c, x, y))
    && (forall c, y :: Sup(m, c, y) == Sup(n, c, y))
  }

  /** Taken from the sender, and from the receiving end's escrow if the token returns. */
  function Taken(e: End, d: End, q: string, a: nat, u: Address, c: string, x: Address, y: Denom): nat {
    When(c == e.chain && x == u && y == CoinOf(q), a)
    + When(ReceiverChainIsSource(e.id, q) && c == d.chain && x == Escrow(d.id) && y == CoinOf(ReceivedPath(e.id, d.id, q)), a)
  }

  /** Given to the receiver, and to the sending end's escrow unless the token returns. */
  function Given(e: End, d: End, q: string, a: nat, v: Address, c: string, x: Address, y: Denom): nat {
    When(SenderChainIsSource(e.id, q) && c == e.chain && x == Escrow(e.id) && y == CoinOf(q), a)
    + When(c == d.chain && x == v && y == CoinOf(ReceivedPath(e.id, d.id, q)), a)
  }

  function Burnt(e: End, q: string, a: nat, c: string, y: Denom): nat {
    When(ReceiverChainIsSource(e.id, q) && c == e.chain && y == CoinOf(q), a)
  }

  function Minted(e: End, d: End, q: string, a: nat, c: string, y: Denom): nat {
    When(SenderChainIsSource(e.id, q) && c == d.chain && y == CoinOf(ReceivedPath(e.id, d.id, q)), a)
  }

  ghost predicate Moved(n: Net, m: Net, e: End, d: End, q: string, a: nat, u: Address, v: Address) {
    && (forall c, x, y :: Bal(m, c, x, y) + Taken(e, d, q, a, u, c, x, y) == Bal(n, c, x, y) + Given(e, d, q, a, v, c, x, y))
    && (forall c, y :: Sup(m, c, y) + Burnt(e, q, a, c, y) == Sup(n, c, y) + Minted(e, d, q, a, c, y))
  }

  /** Receiving on one end undoes receiving on the other. */
  lemma ReceivedBack(e: Hop, d: Hop, q: string)
    requires e.Valid() && d.Valid()
    requires SenderChainIsSource(e, q) || SenderChainIsSource(d, ReceivedPath(e, d, q))
    ensures ReceivedPath(d, e, ReceivedPath(e, d, q)) == q
    ensures ReceiverChainIsSource(d, ReceivedPath(e, d, q)) == SenderChainIsSource(e, q)
  {
    if ReceiverChainIsSource(e, q) {
      PrefixSplits(e, q);
    } else {
      assert HasPrefix(d.Prefix() + q, d.Prefix());
    }
  }

  /** There and back again, with anything in between that leaves no trace in the ledger. */
  lemma ThereAndBack(n: Net, n1: Net, n2: Net, m: Net, e: End, d: End, q: string, a: nat, u: Address, v: Address)
    requires e.id.Valid() && d.id.Valid()
    requires SenderChainIsSource(e.id, q) || SenderChainIsSource(d.id, ReceivedPath(e.id, d.id, q))
    requires Moved(n, n1, e, d, q, a, u, v) && SameLedger(n1, n2) && Moved(n2, m, d, e, ReceivedPath(e.id, d.id, q), a, v, u)
    ensures SameLedger(n, m)
  {
    hide ReceivedPath, CoinOf, HasPrefix, Hop.Valid, Hop.Prefix, Bal, Sup, Taken, Given, Burnt, Minted;
    var z := ReceivedPath(e.id, d.id, q);
    forall c, x, y
      ensures Bal(m, c, x, y) == Bal(n, c, x, y)
    {
      assert Bal(n1, c, x, y) + Taken(e, d, q, a, u, c, x, y) == Bal(n, c, x, y) + Given(e, d, q, a, v, c, x, y);
      assert Bal(n2, c, x, y) == Bal(n1, c, x, y);
      assert Bal(m, c, x, y) + Taken(d, e, z, a, v, c, x, y) == Bal(n2, c, x, y) + Given(d, e, z, a, u, c, x, y);
      CoinsCancel(e, d, q, a, u, v, c, x, y);
    }
    forall c, y
      ensures Sup(m, c, y) == Sup(n, c, y)
    {
      assert Sup(n1, c, y) + Burnt(e, q, a, c, y) == Sup(n, c, y) + Minted(e, d, q, a, c, y);
      assert Sup(n2, c, y) == Sup(n1, c, y);
      assert Sup(m, c, y) + Burnt(d, z, a, c, y) == Sup(n2, c, y) + Minted(d, e, z, a, c, y);
      SuppliesCancel(e, d, q, a, c, y);
    }
  }

  /** What the way back takes is what the way there gave, and the other way round. */
  lemma CoinsCancel(e: End, d: End, q: string, a: nat, u: Address, v: Address, c: string, x: Address, y: Denom)
    requires e.id.Valid() && d.id.Valid()
    requires SenderChainIsSource(e.id, q) || SenderChainIsSource(d.id, ReceivedPath(e.id, d.id, q))
    ensures var z := ReceivedPath(e.id, d.id, q);
            && Taken(d, e, z, a, v, c, x, y) == Given(e, d, q, a, v, c, x, y)
            && Given(d, e, z, a, u, c, x, y) == Taken(e, d, q, a, u, c, x, y)
  {
    hide ReceivedPath, CoinOf, HasPrefix, Hop.Valid, Hop.Prefix;
    ReceivedBack(e.id, d.id, q);
  }

  lemma SuppliesCancel(e: End, d: End, q: string, a: nat, c: string, y: Denom)
    requires e.id.Valid() && d.id.Valid()
    requires SenderChainIsSource(e.id, q) || SenderChainIsSource(d.id, ReceivedPath(e.id, d.id, q))
    ensures var z := ReceivedPath(e.id, d.id, q);
            && Burnt(d, z, a, c, y) == Minted(e, d, q, a, c, y)
            && Minted(d, e, z, a, c, y) == Burnt(e, q, a, c, y)
  {
    hide ReceivedPath, CoinOf, HasPrefix, Hop.Valid, Hop.Prefix;
    ReceivedBack(e.id, d.id, q);
  }

  // ---------------------------------------------------------------- nothing stops a trip

  /** A token that can be sent: a valid denomination other than the bare reserved word. */
  predicate Sendable(q: string) {
    ValidPrefixedDenom(q) && q != DENOM_PREFIX
  }

  /** Exactly the bare reserved word is a valid packet denomination whose coin a transfer refuses. */
  lemma TransferableExactly(q: string)
    requires ValidPrefixedDenom(q)
    ensures !LosesSlash(q)
    ensures ValidIBCDenom(CoinOf(q)) <==> q != DENOM_PREFIX
  {
    ValidatedKeepsSlash(q);
    CoinOfCases(q);
    SplitCount(q, '/');
    JoinInvertsSplit(q, '/');
    hide LosesSlash, CoinOf, Blank, ValidTraceIdentifiers, Split;
    assert '/' !in q ==> Split(q, '/') == [q] by { if '/' !in q { SplitWithoutSeparator(q, '/'); } }
  }

  lemma SendableIsValid(q: string)
    requires Sendable(q)
    ensures ValidPrefixedDenom(q) && !LosesSlash(q) && ValidIBCDenom(CoinOf(q))
  {
    hide ValidPrefixedDenom, LosesSlash, CoinOf, ValidIBCDenom;
    TransferableExactly(q);
  }

  lemma ReceivedIsSendable(e: Hop, d: Hop, q: string)
    requires Sendable(q) && e.Valid() && d.Valid() && ReceivedPath(e, d, q) != DENOM_PREFIX
    ensures Sendable(ReceivedPath(e, d, q))
  {
    hide Hop.Valid, Hop.Prefix, ReceivedPath, Blank, ValidPrefixedDenom;
    ValidatedIsStack(q);
    var hops, base :| WellFormed(hops, base) && q == PathOf(hops, base);
    ReceivePopsOrPushes(hops, base, e, d);
    hide PathOf;
    var after := if hops != [] && hops[0] == e then hops[1..] else [d] + hops;
    StackIsValidated(after, base);
  }

  /** A coin that someone holds resolves to the path it stands for. */
  lemma HeldCoinResolves(c: Chain, q: string, u: Address)
    requires ChainOk(c) && Sendable(q) && c.bank.Balance(u, CoinOf(q)) > 0
    ensures FullDenomPath(c, CoinOf(q)) == Ok(q)
  {
    hide Sendable, ValidPrefixedDenom, LosesSlash, CoinOf, Bank.Balance, Bank.Supply, Bank.Conserved;
    SendableIsValid(q);
    CoinOfCases(q);
    BalanceWithinSupply(c.bank, u, CoinOf(q));
    assert HasPrefix(q, "ibc/") ==> q[3] == '/';
  }

  lemma FundsSuffice(b: Bank, source: Hop, q: string, d: Denom, amount: nat, sender: Address)
    requires b.Conserved() && amount <= b.Balance(sender, d)
    ensures LockOrBurn(b, source, q, d, amount, sender).Ok?
  {
    hide HasPrefix, Bank.Balance, Bank.SendCoins, Bank.BurnCoins, Bank.Conserved;
    SendConserves(b, sender, MODULE_ACCOUNT, d, amount);
    BurnConserves(b.SendCoins(sender, MODULE_ACCOUNT, d, amount).value, MODULE_ACCOUNT, d, amount);
  }

  ghost predicate TermsOk(terms: Terms) {
    && terms.amount > 0 && terms.timeout > 0 && terms.client.active
    && (terms.client.timestamp.Some? ==> terms.client.timestamp.value < terms.timeout)
  }

  ghost predicate EndReady(e: ChannelEnd, k: nat) {
    e.closedAt.None? && 0 < e.nextSequenceSend && e.nextSequenceSend + k < TWO_TO_THE_64
  }

  ghost predicate ChainReady(c: Chain, terms: Terms, k: nat) {
    && c.sendEnabled && c.receiveEnabled && c.Time() < terms.timeout
    && forall id :: id in c.channels ==> EndReady(c.channels[id], k)
  }

  /** Channels are open with room for `k` more packets, transfers are enabled, the timeout lies
      ahead of every chain's clock. */
  ghost predicate Ready(n: Net, terms: Terms, k: nat) {
    TermsOk(terms) && forall c :: c in n.chains ==> ChainReady(n.chains[c], terms, k)
  }

  lemma TransferAccepted(c: Chain, m: MsgTransfer, q: string, terms: Terms, k: nat)
    requires ChainOk(c) && ChainReady(c, terms, k) && TermsOk(terms) && Sendable(q)
    requires m.token == Coin(CoinOf(q), terms.amount) && m.timeoutHeight == Height(0, 0) && m.timeoutTimestamp == terms.timeout
    requires m.source.Valid() && m.source in c.channels && c.channels[m.source].counterparty.Valid()
    requires m.sender.Bech32? && m.sender.hrp == c.hrp && m.receiver.Bech32?
    requires terms.amount <= c.bank.Balance(m.sender.address, CoinOf(q))
    ensures TransferMsg(c, m, terms.client).Ok? && FullDenomPath(c, m.token.denom) == Ok(q)
  {
    hide ChainReady, Sendable, CoinOf, FullDenomPath, LockOrBurn, ValidIBCDenom, Hop.Valid, Bank.Balance, Bank.Conserved, SendPacket, GoodTrace;
    assert c.bank.Conserved();
    hide ChainOk;
    HeldCoinResolves(c, q, m.sender.address);
    SendableIsValid(q);
    FundsSuffice(c.bank, m.source, q, CoinOf(q), terms.amount, m.sender.address);
    ReadyEnables(c, terms, k);
    var e := c.channels[m.source];
    var bank := LockOrBurn(c.bank, m.source, q, CoinOf(q), terms.amount, m.sender.address).value;
    var data := PacketData(q, m.token.amount, Bech32(c.hrp, m.sender.address), m.receiver);
    SendAccepted(c.(bank := bank), Packet(e.nextSequenceSend, m.source, e.counterparty, m.timeoutHeight, m.timeoutTimestamp, Ics20(data)), terms, k);
  }

  /** In all other respects ready, a transfer of a held coin is accepted exactly if the coin is not
      the bare reserved word. */
  lemma TransferAcceptedExactly(c: Chain, m: MsgTransfer, q: string, terms: Terms, k: nat)
    requires ChainOk(c) && ChainReady(c, terms, k) && TermsOk(terms) && ValidPrefixedDenom(q)
    requires m.token == Coin(CoinOf(q), terms.amount) && m.timeoutHeight == Height(0, 0) && m.timeoutTimestamp == terms.timeout
    requires m.source.Valid() && m.source in c.channels && c.channels[m.source].counterparty.Valid()
    requires m.sender.Bech32? && m.sender.hrp == c.hrp && m.receiver.Bech32?
    requires terms.amount <= c.bank.Balance(m.sender.address, CoinOf(q))
    ensures TransferMsg(c, m, terms.client).Ok? <==> q != DENOM_PREFIX
  {
    hide ChainOk, ChainReady, CoinOf, ValidPrefixedDenom, ValidIBCDenom, LosesSlash, SendTransfer, Hop.Valid, Bank.Balance;
    TransferableExactly(q);
    if q != DENOM_PREFIX {
      hide TransferMsg;
      TransferAccepted(c, m, q, terms, k);
    }
  }

  lemma ReadyEnables(c: Chain, terms: Terms, k: nat)
    requires ChainReady(c, terms, k)
    ensures c.sendEnabled && c.receiveEnabled && forall id :: id in c.channels ==> EndReady(c.channels[id], k)
  {
    hide EndReady;
  }

  /** The channel layer accepts a packet whose timeout lies ahead. */
  lemma SendAccepted(d: Chain, p: Packet, terms: Terms, k: nat)
    requires TermsOk(terms) && p.source in d.channels && EndReady(d.channels[p.source], k)
    requires p.source.Valid() && p.dest.Valid() && p.dest == d.channels[p.source].counterparty
    requires p.sequence == d.channels[p.source].nextSequenceSend && p.timeoutHeight == Height(0, 0) && p.timeoutTimestamp == terms.timeout
    requires p.payload.Ics20?
    ensures SendPacket(d, p, terms.client).Ok?
  {
    hide Hop.Valid, Chain.Time;
  }

  /** Without these errors a receive succeeds. */
  lemma ReceiveSucceeds(c: Chain, p: Packet)
    requires p.payload.Ics20? && p.payload.data.ValidBasic() && c.receiveEnabled
    requires c.DecodeAddress(p.payload.data.receiver).Some? && c.DecodeAddress(p.payload.data.receiver).value !in c.blocked
    requires RecvCallback(c, p).0 != ErrorAck(InsufficientFunds)
    ensures RecvCallback(c, p).0.ResultAck?
  {
    hide CoinOf, ParseDenomTrace, HasPrefix, ValidPrefixedDenom, Bank.SendCoins, Bank.MintCoins, Bank.Balance, Hop.Prefix;
  }

  lemma ArrivalAccepted(n: Net, c: string, p: Packet, terms: Terms, k: nat)
    requires Inv(n) && n.Wired() && c in n.chains && End(c, p.dest) in n.peers && CommitmentShown(n, p, End(c, p.dest))
    requires TermsOk(terms) && ChainReady(n.chains[c], terms, k) && p.timeoutHeight == Height(0, 0) && p.timeoutTimestamp == terms.timeout
    requires p.dest in n.chains[c].channels && p.source == n.chains[c].channels[p.dest].counterparty
    requires p.sequence !in n.chains[c].channels[p.dest].receipts && p.sequence !in n.chains[c].channels[p.dest].acks
    requires p.payload.Ics20? && p.payload.data.ValidBasic()
    requires p.payload.data.receiver.Bech32? && p.payload.data.receiver.hrp == n.chains[c].hrp && p.payload.data.receiver.address.User?
    ensures var o := RecvPacketMsg(n.chains[c], p, true); o.Executed? && o.info.ResultAck?
  {
    hide Inv, Net.Wired, ChainOk, CommitmentShown, RecvCallback, PacketData.ValidBasic, Chain.Time;
    InvParts(n, c);
    UsersArePaid(n.chains[c], p.payload.data.receiver.address);
    var a := n.chains[c];
    var c1 := ChannelRecvPacket(a, p, true).chain;
    EscrowCoversArrival(n, c, p, c1);
    ReceiveSucceeds(c1, p);
    CallbackKeepsChannels(c1, p);
  }

  lemma UsersArePaid(c: Chain, u: Address)
    requires ChainOk(c) && u.User?
    ensures u !in c.blocked
  {
  }

  lemma CallbackKeepsChannels(c: Chain, p: Packet)
    ensures RecvCallback(c, p).1.channels == c.channels
  {
    hide CoinOf, ParseDenomTrace, HasPrefix, ValidPrefixedDenom, Bank.SendCoins, Bank.MintCoins, Bank.Balance, Hop.Prefix;
  }

  // ---------------------------------------------------------------- one trip

  /** The chain after the sending half of a trip. */
  ghost predicate Sent(n: Net, m: Net, t: Trip, terms: Terms)
    requires n.Wired() && t.end in n.peers
  {
    var c, msg := n.chains[t.end.chain], TripMessage(n, t, terms);
    && t.end.chain in m.chains && m == n.WithChain(t.end.chain, m.chains[t.end.chain])
    && Sends(c, m.chains[t.end.chain], msg, t.path)
  }

  lemma SentFrom(n: Net, t: Trip, terms: Terms, k: nat)
    requires Inv(n) && Ready(n, terms, k) && t.end in n.peers && Sendable(t.path)
    requires terms.amount <= Bal(n, t.end.chain, User(t.from), CoinOf(t.path))
    ensures n.Wired()
    ensures var c, msg := n.chains[t.end.chain], TripMessage(n, t, terms);
            && TransferMsg(c, msg, terms.client).Ok? && FullDenomPath(c, msg.token.denom) == Ok(t.path)
            && Sent(n, Apply(n, Transfer(t.end.chain, msg, terms.client)), t, terms)
  {
    hide Inv, Net.Wired, ChainOk, ChainReady, Sendable, CoinOf, TransferMsg, FullDenomPath, Sends, Bank.Balance, Packets.Grows, PacketsOk, Hop.Valid, Height.GTE;
    InvAt(n, t.end);
    var c, msg := n.chains[t.end.chain], TripMessage(n, t, terms);
    TransferAccepted(c, msg, t.path, terms, k);
    TransferSends(c, msg, terms.client);
  }

  lemma SentIsReady(n: Net, m: Net, t: Trip, terms: Terms, k: nat)
    requires n.Wired() && t.end in n.peers && Sent(n, m, t, terms) && Ready(n, terms, k + 1)
    ensures Ready(m, terms, k)
  {
    hide Net.Wired, CoinOf, LosesSlash, HonestPayload, Locks, Bank.Conserved;
    WiredAt(n, t.end);
    var c, d := n.chains[t.end.chain], m.chains[t.end.chain];
    assert ChainReady(c, terms, k + 1);
    assert d.Time() == c.Time();
    hide Chain.Time;
    forall id | id in d.channels
      ensures EndReady(d.channels[id], k)
    {
      assert EndReady(c.channels[id], k + 1);
    }
    assert ChainReady(d, terms, k);
    forall x | x in n.chains
      ensures ChainReady(m.chains[x], terms, k)
    {
      assert ChainReady(n.chains[x], terms, k + 1);
    }
  }

  /** The packet just sent is provable to the other end, which has not seen it. */
  lemma SentIsNew(n: Net, m: Net, t: Trip, terms: Terms)
    requires Inv(n) && n.Wired() && t.end in n.peers && Sent(n, m, t, terms) && m.Wired() && m.peers == n.peers
    requires FullDenomPath(n.chains[t.end.chain], CoinOf(t.path)) == Ok(t.path)
    ensures n.WiredEnd(t.end) && m.WiredEnd(n.peers[t.end])
    ensures var p, d := SentPacket(n.chains[t.end.chain], TripMessage(n, t, terms)), m.At(n.peers[t.end]);
            && CommitmentShown(m, p, n.peers[t.end])
            && p.dest == n.peers[t.end].id && p.source == d.counterparty
            && p.sequence !in d.receipts && p.sequence !in d.acks
  {
    hide Inv, Net.Wired, CoinOf, LosesSlash, HonestPayload, Locks, Bank.Conserved, ChainOk, Packets.Grows, Expired, Timely, Hop.Valid, Height.GTE, FullDenomPath, Delivered, PaidBack;
    var e, d := t.end, n.peers[t.end];
    InvAt(n, e);
    InvAt(n, d);
    InvWired(n, e);
    assert m.WiredEnd(d) && m.WiredEnd(e) by { MemberWired(m, d); MemberWired(m, e); }
    assert n.At(e).nextSequenceSend !in n.At(e).history;
    assert n.At(e).nextSequenceSend !in n.At(d).receipts;
    assert m.At(d).receipts == n.At(d).receipts && m.At(d).acks == n.At(d).acks;
  }

  lemma MemberWired(n: Net, e: End)
    requires n.Wired() && e in n.peers
    ensures n.WiredEnd(e)
  {
  }

  /** The chain after the receiving half. */
  ghost predicate Got(n: Net, m: Net, c: string, p: Packet) {
    && m.peers == n.peers && c in n.chains && c in m.chains && m.chains == n.chains[c := m.chains[c]]
    && Receives(n.chains[c], m.chains[c], p, ResultAck)
  }

  lemma ArriveGets(n: Net, c: string, p: Packet)
    requires Inv(n) && n.Wired() && c in n.chains && p.source.Valid() && p.dest.Valid()
    requires var o := RecvPacketMsg(n.chains[c], p, CommitmentShown(n, p, End(c, p.dest))); o.Executed? && o.info.ResultAck?
    ensures Arrive(n, c, p).Some? && Got(n, Arrive(n, c, p).value, c, p)
  {
    hide Inv, Net.Wired, RecvPacketMsg, CommitmentShown, Receives, Hop.Valid, CoinOf, ReceivedPath;
    RecvPacketReceives(n.chains[c], p, CommitmentShown(n, p, End(c, p.dest)));
  }

  lemma GotIsReady(n: Net, m: Net, c: string, p: Packet, terms: Terms, k: nat)
    requires Got(n, m, c, p) && Ready(n, terms, k)
    ensures Ready(m, terms, k)
  {
    hide Credits, ReceiveError;
    var a, b := n.chains[c], m.chains[c];
    assert ChainReady(a, terms, k);
    assert b.Time() == a.Time();
    hide Chain.Time;
    forall id | id in b.channels
      ensures EndReady(b.channels[id], k)
    {
      assert EndReady(a.channels[id], k);
    }
    assert ChainReady(b, terms, k);
    forall x | x in n.chains
      ensures ChainReady(m.chains[x], terms, k)
    {
      assert ChainReady(n.chains[x], terms, k);
    }
  }

  /** Both halves together move the coins as `Moved` says, also when both ends are on one chain. */
  lemma HalvesMove(n: Net, n1: Net, m: Net, t: Trip, terms: Terms, p: Packet)
    requires n.Wired() && t.end in n.peers && Sent(n, n1, t, terms) && Got(n1, m, n.peers[t.end].chain, p)
    requires p.source == t.end.id && p.dest == n.peers[t.end].id && p.payload.Ics20?
    requires p.payload.data.denom == t.path && p.payload.data.amount == terms.amount
    requires p.payload.data.receiver.Bech32? && p.payload.data.receiver.address == User(t.to)
    ensures Moved(n, m, t.end, n.peers[t.end], t.path, terms.amount, User(t.from), User(t.to))
  {
    hide Net.Wired, CoinOf, LosesSlash, HasPrefix, ReceivedPath, HonestPayload, Bank.Conserved, Bank.Balance, Bank.Supply, ReceiveError, TracesGrow, Hop.Prefix;
    WiredAt(n, t.end);
    var e, d := t.end, n.peers[t.end];
    var b0, b1 := n.chains[e.chain].bank, n1.chains[e.chain].bank;
    var b2, b3 := n1.chains[d.chain].bank, m.chains[d.chain].bank;
    assert Locks(b0, b1, e.id, t.path, terms.amount, User(t.from));
    assert Pays(b2, b3, e.id, d.id, t.path, terms.amount, User(t.to));
    hide Sends, Receives, SentCommitment, AfterSend, TripMessage;
    forall c, x, y
      ensures Bal(m, c, x, y) + Taken(e, d, t.path, terms.amount, User(t.from), c, x, y)
              == Bal(n, c, x, y) + Given(e, d, t.path, terms.amount, User(t.to), c, x, y)
    {
      assert c != e.chain ==> Bal(n1, c, x, y) == Bal(n, c, x, y);
      assert c != d.chain ==> Bal(m, c, x, y) == Bal(n1, c, x, y);
    }
    forall c, y
      ensures Sup(m, c, y) + Burnt(e, t.path, terms.amount, c, y) == Sup(n, c, y) + Minted(e, d, t.path, terms.amount, c, y)
    {
      assert c != e.chain ==> Sup(n1, c, y) == Sup(n, c, y);
      assert c != d.chain ==> Sup(m, c, y) == Sup(n1, c, y);
    }
  }

  /** A trip with enough coins always completes and moves exactly those coins. */
  lemma TripSucceeds(n: Net, t: Trip, terms: Terms, k: nat)
    requires Inv(n) && Ready(n, terms, k + 1) && t.end in n.peers && Sendable(t.path)
    requires terms.amount <= Bal(n, t.end.chain, User(t.from), CoinOf(t.path))
    ensures Move(n, t, terms).Some?
    ensures var m := Move(n, t, terms).value;
            m.peers == n.peers && Ready(m, terms, k) && Moved(n, m, t.end, n.peers[t.end], t.path, terms.amount, User(t.from), User(t.to))
  {
    hide Inv, Net.Wired, ChainOk, Ready, Sendable, CoinOf, TransferMsg, RecvPacketMsg, FullDenomPath, Sent, Got, Bal, Packets.Grows, PacketsOk, Hop.Valid, Height.GTE,
      Apply, Arrive, Moved, CommitmentShown;
    InvAt(n, t.end);
    SentFrom(n, t, terms, k + 1);
    var e, d, c, msg := t.end, n.peers[t.end], n.chains[t.end.chain], TripMessage(n, t, terms);
    var s := Transfer(e.chain, msg, terms.client);
    StepKeepsInv(n, s);
    var n1 := Apply(n, s);
    TransferLeaves(c, msg, terms.client);
    SentIsReady(n, n1, t, terms, k);
    SentSurroundings(n, n1, t, terms);
    InvAt(n1, e);
    SentIsNew(n, n1, t, terms);
    var p := SentPacket(c, msg);
    SendableIsValid(t.path);
    ReadyAt(n1, d.chain, terms, k);
    ArrivalAccepted(n1, d.chain, p, terms, k);
    ArriveGets(n1, d.chain, p);
    var m := Arrive(n1, d.chain, p).value;
    GotIsReady(n1, m, d.chain, p, terms, k);
    HalvesMove(n, n1, m, t, terms, p);
    GotKeepsPeers(n1, m, d.chain, p);
  }

  lemma SentSurroundings(n: Net, m: Net, t: Trip, terms: Terms)
    requires n.Wired() && t.end in n.peers && Sent(n, m, t, terms)
    ensures m.peers == n.peers && m.chains.Keys == n.chains.Keys && forall x :: x in n.chains ==> m.chains[x].hrp == n.chains[x].hrp
  {
    hide Net.Wired, CoinOf, LosesSlash, HonestPayload, Locks, Bank.Conserved;
    WiredAt(n, t.end);
  }

  lemma ReadyAt(n: Net, c: string, terms: Terms, k: nat)
    requires Ready(n, terms, k) && c in n.chains
    ensures TermsOk(terms) && ChainReady(n.chains[c], terms, k)
  {
    hide ChainReady, TermsOk;
  }

  lemma GotKeepsPeers(n: Net, m: Net, c: string, p: Packet)
    requires Got(n, m, c, p)
    ensures m.peers == n.peers
  {
  }

  // ---------------------------------------------------------------- the whole journey

  lemma {:induction false} TravelOn(n: Net, first: seq<Trip>, last: Trip, terms: Terms)
    requires Inv(n) && Travel(n, first, terms).Some?
    ensures Travel(n, first + [last], terms) == Move(Travel(n, first, terms).value, last, terms)
    decreases |first|
  {
    hide Inv, Move;
    if first != [] {
      TravelOn(Move(n, first[0], terms).value, first[1..], last, terms);
      assert (first + [last])[1..] == first[1..] + [last];
    } else {
      assert first + [last] == [last];
      assert [last][1..] == [];
      assert forall m :: Inv(m) ==> Travel(m, [], terms) == Some(m);
    }
  }

  lemma Paid(n: Net, m: Net, e: End, d: End, q: string, a: nat, u: Address, v: Address)
    requires Moved(n, m, e, d, q, a, u, v) && a <= Bal(n, e.chain, u, CoinOf(q)) && v.User?
    ensures a <= Bal(m, d.chain, v, CoinOf(ReceivedPath(e.id, d.id, q)))
  {
    hide CoinOf, HasPrefix, ReceivedPath, Bal, Sup;
    var y := CoinOf(ReceivedPath(e.id, d.id, q));
    assert Bal(m, d.chain, v, y) + Taken(e, d, q, a, u, d.chain, v, y) == Bal(n, d.chain, v, y) + Given(e, d, q, a, v, d.chain, v, y);
  }

  lemma PaidSame(n: Net, m: Net, c: string, x: Address, y: Denom)
    requires SameLedger(n, m)
    ensures Bal(m, c, x, y) == Bal(n, c, x, y)
  {
    hide Bal, Sup;
  }

  /** A path that someone holds can go through any end and come back: the other side neither takes it
      for a returning one, unless it left from there, nor receives the bare reserved word. */
  lemma HeldPathReturns(n: Net, e: End, q: string, u: Address, a: nat)
    requires Inv(n) && e in n.peers && a <= Bal(n, e.chain, u, CoinOf(q)) && n.peers[e] in n.peers && n.peers[n.peers[e]] == e
    ensures a > 0 ==>
              var z := ReceivedPath(e.id, n.peers[e].id, q);
              && (SenderChainIsSource(e.id, q) || SenderChainIsSource(n.peers[e].id, z))
              && z != DENOM_PREFIX
  {
    hide Inv, CoinOf, Bank.Balance, Bank.Supply, Bank.Conserved, InFlight, Hop.Prefix, Net.Wired, ChainOk, Net.Complete, Net.Named;
    var d := n.peers[e];
    var z := ReceivedPath(e.id, d.id, q);
    if a > 0 && ReceiverChainIsSource(e.id, q) {
      PrefixSplits(e.id, q);
      if Unmintable(d.id, z) {
        InvUnminted(n, d, z);
        InvParts(n, e.chain);
        ConservedSupply(n.chains[e.chain], u, CoinOf(q));
      }
    } else if a > 0 {
      PrefixIsLonger(d.id, q);
    }
  }

  lemma ConservedSupply(c: Chain, u: Address, d: Denom)
    requires ChainOk(c)
    ensures c.bank.Balance(u, d) <= c.bank.Supply(d)
  {
    hide Bank.Balance, Bank.Supply, GoodTrace;
    BalanceWithinSupply(c.bank, u, d);
  }

  lemma PrefixIsLonger(d: Hop, q: string)
    ensures d.Prefix() + q != DENOM_PREFIX
  {
    assert (d.Prefix() + q)[|d.port|] == '/';
    assert '/' !in DENOM_PREFIX;
  }

  lemma ReadyTerms(n: Net, terms: Terms, k: nat)
    requires Ready(n, terms, k)
    ensures terms.amount > 0
  {
    hide ChainReady;
  }

  /** Multi-hop round trip. From any state with the invariant (so from any reachable one), over any
      route of any length through any chains: sending the token out along the route and back in
      reverse order completes, and afterwards every balance of every account and every supply on
      every chain is what it was. */
  lemma {:induction false} RoundTripRestores(n: Net, route: seq<Leg>, chain: string, user: string, q: string, terms: Terms, k: nat)
    requires Inv(n) && Ready(n, terms, 2 * |route| + k) && Sendable(q)
    requires Route(n.peers, route, chain, user)
    requires terms.amount <= Bal(n, chain, User(user), CoinOf(q))
    ensures forall i :: 0 <= i < |route| ==> route[i].out in n.peers
    ensures var r := Travel(n, Outward(n.peers, route, q) + Homeward(n.peers, route, q), terms);
            r.Some? && r.value.peers == n.peers && Ready(r.value, terms, k) && SameLedger(n, r.value)
    decreases |route|
  {
    hide Inv, Move, Ready, Sendable, CoinOf, ReceivedPath, HasPrefix, Moved, SameLedger, Bal, Hop.Valid;
    RouteEnds(n.peers, route, chain, user);
    if route == [] {
      SameLedgerReflexive(n);
      assert Outward(n.peers, route, q) + Homeward(n.peers, route, q) == [];
    } else {
      var e, d, leg, z := route[0].out, n.peers[route[0].out], route[0], PathAfter(n.peers, route[0], q);
      InvNames(n, e);
      HeldPathReturns(n, e, q, User(leg.from), terms.amount);
      assert terms.amount > 0 by { ReadyTerms(n, terms, 2 * |route| + k); }
      var out, back := Trip(e, q, leg.from, leg.to), Trip(d, z, leg.to, leg.from);
      TripSucceeds(n, out, terms, 2 * |route| - 1 + k);
      var n1 := Move(n, out, terms).value;
      Paid(n, n1, e, d, q, terms.amount, User(leg.from), User(leg.to));
      ReceivedIsSendable(e.id, d.id, q);
      RoundTripRestores(n1, route[1..], d.chain, leg.to, z, terms, k + 1);
      var inner := Outward(n.peers, route[1..], z) + Homeward(n.peers, route[1..], z);
      var n2 := Travel(n1, inner, terms).value;
      PaidSame(n1, n2, d.chain, User(leg.to), CoinOf(z));
      TripSucceeds(n2, back, terms, k);
      var m := Move(n2, back, terms).value;
      ThereAndBack(n, n1, n2, m, e, d, q, terms.amount, User(leg.from), User(leg.to));
      var trips := Outward(n.peers, route, q) + Homeward(n.peers, route, q);
      assert trips == [out] + (inner + [back]);
      assert trips[1..] == inner + [back];
      TravelOn(n1, inner, back, terms);
    }
  }

  lemma SameLedgerReflexive(n: Net)
    ensures SameLedger(n, n)
  {
  }

  lemma InvNames(n: Net, e: End)
    requires Inv(n) && e in n.peers
    ensures n.peers[e] in n.peers && n.peers[n.peers[e]] == e && e.id.Valid() && n.peers[e].id.Valid()
  {
    hide Inv, ChainOk, PacketsOk, Packets.Grows, Hop.Valid, Net.Wired, Height.GTE;
    InvAt(n, e);
  }
}
