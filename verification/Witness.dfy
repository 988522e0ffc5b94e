/** The assumptions of the guarantees can be met: two chains joined by a channel, at genesis, with a
    user who can send. */
module Witness {
  import opened Basics
  import opened Strings
  import opened Denoms
  import opened HopStack
  import opened Heights
  import opened Totals
  import opened Banking
  import opened Chains
  import opened Network
  import opened Guarantees
  import opened Refunds
  import opened RoundTrips

  const FAR := Hop("transfer", "channel-1")

  function FreshChain(hrp: string, bank: Bank, id: Hop, counterparty: Hop): Chain {
    Chain(hrp, bank, map[], map[id := ChannelEnd(counterparty, None, 1, map[], map[], map[], map[])],
          true, true, {MODULE_ACCOUNT}, Height(0, 1), map[Height(0, 1) := 0])
  }

  function FullBank(): Bank {
    Bank(map[Plain("uatom") := map[User("alice") := 100]], map[Plain("uatom") := 100])
  }

  function EmptyBank(): Bank {
    Bank(map[], map[])
  }

  function TwoChains(): Net {
    var a, b := End("a", END), End("b", FAR);
    Net(map[a := b, b := a], map["a" := FreshChain("a", FullBank(), END, FAR), "b" := FreshChain("b", EmptyBank(), FAR, END)], map[], multiset{})
  }

  lemma BanksConserve()
    ensures FullBank().Conserved() && EmptyBank().Conserved()
  {
    var m: map<Address, nat> := map[User("alice") := 100];
    TotalUpdate<Address>(map[], User("alice"), 100);
    assert m == map[][User("alice") := 100];
    assert Total<Address>(map[]) == 0;
    forall d
      ensures FullBank().Supply(d) == Total(FullBank().Ledger(d)) && EmptyBank().Supply(d) == Total(EmptyBank().Ledger(d))
    {
    }
  }

  lemma ChainsAreGenesis()
    ensures forall c :: c in TwoChains().chains ==> GenesisChain(TwoChains().chains[c])
  {
    hide Bank.Conserved;
    BanksConserve();
    forall c | c in TwoChains().chains
      ensures GenesisChain(TwoChains().chains[c])
    {
      assert map[Height(0, 1) := 0].Keys == {Height(0, 1)};
    }
  }

  lemma WiringHolds()
    ensures TwoChains().Wired() && TwoChains().Named() && TwoChains().Complete()
    ensures forall e :: e in TwoChains().peers ==> e in {End("a", END), End("b", FAR)}
  {
    hide Hop.Valid;
    ValidEnds();
  }

  lemma SheetsAreEmpty()
    requires TwoChains().Wired()
    ensures var n := TwoChains();
            && (forall e, p :: e in n.peers ==> n.chains[e.chain].bank.Supply(CoinOf(e.id.Prefix() + p)) == 0)
            && (forall e, d :: e in n.peers ==> n.Gift(e.chain, Escrow(e.id), d) == n.chains[e.chain].bank.Balance(Escrow(e.id), d))
  {
    var n := TwoChains();
    WiringHolds();
    hide Net.Wired, Net.Complete, CoinOf, Hop.Prefix, Hop.Valid;
    forall e, p | e in n.peers
      ensures n.chains[e.chain].bank.Supply(CoinOf(e.id.Prefix() + p)) == 0
    {
      PrefixedKeepsSlash(e.id, p);
    }
  }

  /** There is a genesis, and in it a journey to which the round-trip theorem applies. */
  lemma GenesisExists()
    ensures Genesis(TwoChains()) && Inv(TwoChains())
    ensures Route(TwoChains().peers, [Leg(End("a", END), "alice", "bob")], "a", "alice") && Sendable("uatom")
    ensures Ready(TwoChains(), Terms(100, 5, ClientView(true, Height(0, 1), None)), 2)
    ensures 100 <= Bal(TwoChains(), "a", User("alice"), CoinOf("uatom"))
  {
    WiringHolds();
    ChainsAreGenesis();
    SheetsAreEmpty();
    GenesisFromParts();
    GenesisHasInv(TwoChains());
    JourneyIsPossible();
  }

  lemma GenesisFromParts()
    requires TwoChains().Wired() && TwoChains().Named() && TwoChains().Complete()
    requires forall c :: c in TwoChains().chains ==> GenesisChain(TwoChains().chains[c])
    requires forall e, p :: e in TwoChains().peers ==> TwoChains().chains[e.chain].bank.Supply(CoinOf(e.id.Prefix() + p)) == 0
    requires forall e, d :: e in TwoChains().peers ==> TwoChains().Gift(e.chain, Escrow(e.id), d) == TwoChains().chains[e.chain].bank.Balance(Escrow(e.id), d)
    ensures Genesis(TwoChains())
  {
    hide GenesisChain, CoinOf, Hop.Prefix, Hop.Valid, Net.Complete, Net.Named, Bank.Balance, Bank.Supply, Net.Gift;
    assert forall e :: e in TwoChains().peers ==> FreshEnd(TwoChains().At(e));
  }

  lemma JourneyIsPossible()
    ensures Route(TwoChains().peers, [Leg(End("a", END), "alice", "bob")], "a", "alice") && Sendable("uatom")
    ensures Ready(TwoChains(), Terms(100, 5, ClientView(true, Height(0, 1), None)), 2)
    ensures 100 <= Bal(TwoChains(), "a", User("alice"), CoinOf("uatom"))
  {
    hide Route, Ready, Sendable, CoinOf;
    RouteExists();
    UatomIsSendable();
    ChainsAreReady();
    CoinOfCases("uatom");
  }

  lemma RouteExists()
    ensures Route(TwoChains().peers, [Leg(End("a", END), "alice", "bob")], "a", "alice")
  {
    assert [Leg(End("a", END), "alice", "bob")][1..] == [];
    assert forall peers, chain, user :: Route(peers, [], chain, user);
  }

  lemma UatomIsSendable()
    ensures Sendable("uatom")
  {
    assert SpaceWidth("uatom") == 0;
    SplitWithoutSeparator("uatom", '/');
  }

  lemma ChainsAreReady()
    ensures Ready(TwoChains(), Terms(100, 5, ClientView(true, Height(0, 1), None)), 2)
  {
  }
}
