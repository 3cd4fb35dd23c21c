/** The token contract: balances that only a transfer changes. */
module Token {
  import opened Base

  class TokenContract {
    var balances: Balances

    constructor (initial: Balances)
      ensures balances == initial
    {
      balances := initial;
    }

    method Restore(saved: Balances)
      modifies this
      ensures balances == saved
    {
      balances := saved;
    }

    method Move(from: Address, to: Address, amount: int) returns (r: Result<()>)
      modifies this
      ensures r == Transfer(old(balances), from, to, amount).Status()
      ensures balances == if r.Ok? then Transfer(old(balances), from, to, amount).value else old(balances)
    {
      if amount < 0 || Get(balances, from) < amount {
        return Err(Trap);
      }
      balances := balances[from := Get(balances, from) - amount];
      balances := balances[to := Get(balances, to) + amount];
      return Ok(());
    }
  }
}
