/** The bank keeper as the transfer module uses it: balances per account and denomination, the
    supply counter, and the four operations that change them. */
module Banking {
  import opened Basics
  import opened Totals
  import opened Denoms

  /** Account addresses. `Escrow` is the hash of a channel end's identifiers
      (modules/apps/transfer/types/keys.go), taken to be free of collisions, so that no key holder
      (`User`) and no module account shares it. */
  datatype Address = User(name: string) | Escrow(end: Hop) | Module(name: string)

  datatype Bank = Bank(ledgers: map<Denom, map<Address, nat>>, supplies: map<Denom, nat>)
  {
    function Ledger(d: Denom): map<Address, nat> {
      if d in ledgers then ledgers[d] else map[]
    }

    function Balance(a: Address, d: Denom): nat {
      Get(Ledger(d), a)
    }

    function Supply(d: Denom): nat {
      Get(supplies, d)
    }

    /** The supply of every denomination is the sum of the balances. */
    ghost predicate Conserved() {
      forall d :: Supply(d) == Total(Ledger(d))
    }

    function Credit(a: Address, d: Denom, n: nat): (b: Bank)
      ensures forall x, e :: b.Balance(x, e) == Balance(x, e) + if x == a && e == d then n else 0
      ensures b.supplies == supplies
    {
      Bank(ledgers[d := Ledger(d)[a := Balance(a, d) + n]], supplies)
    }

    function Debit(a: Address, d: Denom, n: nat): (b: Bank)
      requires n <= Balance(a, d)
      ensures forall x, e :: b.Balance(x, e) == Balance(x, e) - if x == a && e == d then n else 0
      ensures b.supplies == supplies
    {
      Bank(ledgers[d := Ledger(d)[a := Balance(a, d) - n]], supplies)
    }

    /** `SendCoins`: fails exactly when the balance is insufficient. */
    function SendCoins(from: Address, to: Address, d: Denom, n: nat): (r: Option<Bank>)
      ensures r.Some? <==> n <= Balance(from, d)
      ensures r.Some? ==> forall x, e :: r.value.Balance(x, e) + (if x == from && e == d then n else 0)
                                         == Balance(x, e) + (if x == to && e == d then n else 0)
      ensures r.Some? ==> r.value.supplies == supplies
    {
      if n <= Balance(from, d) then Some(Debit(from, d, n).Credit(to, d, n)) else None
    }

    /** `MintCoins` into a module account. */
    function MintCoins(m: Address, d: Denom, n: nat): (b: Bank)
      ensures forall x, e :: b.Balance(x, e) == Balance(x, e) + if x == m && e == d then n else 0
      ensures forall e :: b.Supply(e) == Supply(e) + if e == d then n else 0
    {
      Credit(m, d, n).(supplies := supplies[d := Supply(d) + n])
    }

    /** `BurnCoins` from a module account; the supply counter must not go below zero. */
    function BurnCoins(m: Address, d: Denom, n: nat): (r: Option<Bank>)
      ensures r.Some? <==> n <= Balance(m, d) && n <= Supply(d)
      ensures r.Some? ==> forall x, e :: r.value.Balance(x, e) == Balance(x, e) - if x == m && e == d then n else 0
      ensures r.Some? ==> forall e :: r.value.Supply(e) == Supply(e) - if e == d then n else 0
    {
      if n <= Balance(m, d) && n <= Supply(d) then
        Some(Debit(m, d, n).(supplies := supplies[d := Supply(d) - n]))
      else None
    }
  }

  lemma CreditTotal(b: Bank, a: Address, d: Denom, n: nat)
    ensures forall e :: Total(b.Credit(a, d, n).Ledger(e)) == Total(b.Ledger(e)) + if e == d then n else 0
  {
    TotalUpdate(b.Ledger(d), a, b.Balance(a, d) + n);
  }

  lemma DebitTotal(b: Bank, a: Address, d: Denom, n: nat)
    requires n <= b.Balance(a, d)
    ensures forall e :: Total(b.Debit(a, d, n).Ledger(e)) == Total(b.Ledger(e)) - if e == d then n else 0
  {
    TotalUpdate(b.Ledger(d), a, b.Balance(a, d) - n);
  }

  /** A balance never exceeds the supply. */
  lemma BalanceWithinSupply(b: Bank, a: Address, d: Denom)
    requires b.Conserved()
    ensures b.Balance(a, d) <= b.Supply(d)
  {
    TotalUpdate(b.Ledger(d), a, 0);
  }

  lemma SendConserves(b: Bank, from: Address, to: Address, d: Denom, n: nat)
    requires b.Conserved() && b.SendCoins(from, to, d, n).Some?
    ensures b.SendCoins(from, to, d, n).value.Conserved()
  {
    DebitTotal(b, from, d, n);
    CreditTotal(b.Debit(from, d, n), to, d, n);
  }

  lemma MintConserves(b: Bank, m: Address, d: Denom, n: nat)
    requires b.Conserved()
    ensures b.MintCoins(m, d, n).Conserved()
  {
    CreditTotal(b, m, d, n);
    var c := b.MintCoins(m, d, n);
    assert c.ledgers == b.Credit(m, d, n).ledgers;
    assert forall e :: c.Ledger(e) == b.Credit(m, d, n).Ledger(e);
  }

  /** With balances adding up to the supply, a module account can burn whatever it holds. */
  lemma BurnConserves(b: Bank, m: Address, d: Denom, n: nat)
    requires b.Conserved() && n <= b.Balance(m, d)
    ensures b.BurnCoins(m, d, n).Some? && b.BurnCoins(m, d, n).value.Conserved()
  {
    BalanceWithinSupply(b, m, d);
    DebitTotal(b, m, d, n);
    var c := b.BurnCoins(m, d, n).value;
    assert c.ledgers == b.Debit(m, d, n).ledgers;
    assert forall e :: c.Ledger(e) == b.Debit(m, d, n).Ledger(e);
  }
}
