/**
 * A plain ERC-20 (EIP-20) ledger, as the OpenZeppelin 4.x `ERC20` base
 * implements it: a balance table, an allowance table keyed by
 * (owner, spender), and the zero-address and balance checks of
 * `_transfer`, `_mint`, `_burn` and `_approve`.
 *
 * The contracts of the model hold tokens in such a ledger (the tests use a
 * mintable mock), and the BRLC token wraps one with its pause and blacklist
 * gates. The pure functions below are the specification; the `Token`
 * class updates its tables in place and is proved against them.
 */
module Erc20 {
  import opened Common

  type Balances = map<Account, nat>
  type Allowances = map<(Account, Account), nat>

  /** Both tables of a ledger, for operations that touch both. */
  datatype Tables = Tables(balances: Balances, allowances: Allowances)

  /** The balance table after moving `amount` from `from` to `to`. */
  function Moved(m: Balances, from: Account, to: Account, amount: nat): (r: Balances)
    requires amount <= Get(m, from)
    ensures from != to ==> Get(r, from) == Get(m, from) - amount && Get(r, to) == Get(m, to) + amount
    ensures from == to ==> Get(r, from) == Get(m, from)
    ensures forall a :: a != from && a != to ==> Get(r, a) == Get(m, a)
  {
    var debited := m[from := Get(m, from) - amount];
    debited[to := Get(debited, to) + amount]
  }

  /** The balance table after creating `amount` new tokens for `to`. */
  function Minted(m: Balances, to: Account, amount: nat): (r: Balances)
    ensures Get(r, to) == Get(m, to) + amount
    ensures forall a :: a != to ==> Get(r, a) == Get(m, a)
  {
    m[to := Get(m, to) + amount]
  }

  /** The balance table after destroying `amount` of the tokens of `from`. */
  function Burned(m: Balances, from: Account, amount: nat): (r: Balances)
    requires amount <= Get(m, from)
    ensures Get(r, from) == Get(m, from) - amount
    ensures forall a :: a != from ==> Get(r, a) == Get(m, a)
  {
    m[from := Get(m, from) - amount]
  }

  /** A transfer attempt (`_transfer`): the new balance table, or why it reverts. */
  function Send(m: Balances, from: Account, to: Account, amount: nat): (r: Result<Balances>)
    ensures r.Ok? <==> from != ZERO && to != ZERO && amount <= Get(m, from)
    ensures r.Err? ==> r.error == (if from == ZERO || to == ZERO then ZeroAddress else InsufficientBalance)
    ensures r.Ok? ==> Get(r.value, from) + Get(r.value, to) == Get(m, from) + Get(m, to)
    ensures r.Ok? ==> forall a :: a != from && a != to ==> Get(r.value, a) == Get(m, a)
  {
    if from == ZERO || to == ZERO then Err(ZeroAddress)
    else if Get(m, from) < amount then Err(InsufficientBalance)
    else Ok(Moved(m, from, to, amount))
  }

  /**
   * `transferFrom` by `spender`: the transfer checks of `Send` come first,
   * then the allowance `from` granted `spender` must cover `amount`, and it
   * is reduced by `amount`.
   */
  function SendFrom(t: Tables, spender: Account, from: Account, to: Account, amount: nat): (r: Result<Tables>)
    ensures r.Ok? <==> Send(t.balances, from, to, amount).Ok? && amount <= Get(t.allowances, (from, spender))
    ensures r.Err? ==> r.error == (if Send(t.balances, from, to, amount).Err? then Send(t.balances, from, to, amount).error
                                   else InsufficientAllowance)
    ensures r.Ok? ==> r.value.balances == Send(t.balances, from, to, amount).value
  {
    match Send(t.balances, from, to, amount)
    case Err(e) => Err(e)
    case Ok(moved) =>
      var allowed := Get(t.allowances, (from, spender));
      if allowed < amount then Err(InsufficientAllowance)
      else Ok(Tables(moved, t.allowances[(from, spender) := allowed - amount]))
  }

  /** What a successful `transferFrom` does to the two tables, stated outright. */
  lemma SendFromEffect(t: Tables, spender: Account, from: Account, to: Account, amount: nat)
    requires SendFrom(t, spender, from, to, amount).Ok?
    ensures var t' := SendFrom(t, spender, from, to, amount).value;
      && from != ZERO && to != ZERO
      && amount <= Get(t.balances, from)
      && amount <= Get(t.allowances, (from, spender))
      && t'.balances == Moved(t.balances, from, to, amount)
      && Get(t'.allowances, (from, spender)) == Get(t.allowances, (from, spender)) - amount
      && (forall p :: p != (from, spender) ==> Get(t'.allowances, p) == Get(t.allowances, p))
  {
  }

  /** A mintable ERC-20 token whose tables change in place. */
  class Token {
    var balances: Balances
    var allowances: Allowances

    constructor ()
      ensures balances == map[] && allowances == map[]
    {
      balances := map[];
      allowances := map[];
    }

    function BalanceOf(account: Account): nat
      reads this
    {
      Get(balances, account)
    }

    function Allowance(owner: Account, spender: Account): nat
      reads this
    {
      Get(allowances, (owner, spender))
    }

    function State(): Tables
      reads this
    {
      Tables(balances, allowances)
    }

    /** `_transfer`: fails for a zero party or a short balance, else moves `amount`. */
    method Transfer(from: Account, to: Account, amount: nat) returns (r: Outcome)
      modifies this
      ensures Send(old(balances), from, to, amount) == (if r.Pass? then Ok(balances) else Err(r.error))
      ensures r.Fail? ==> balances == old(balances)
      ensures allowances == old(allowances)
    {
      if from == ZERO || to == ZERO {
        return Fail(ZeroAddress);
      }
      var fromBalance := Get(balances, from);
      if fromBalance < amount {
        return Fail(InsufficientBalance);
      }
      balances := balances[from := fromBalance - amount];
      balances := balances[to := Get(balances, to) + amount];
      r := Pass;
    }

    /** `transferFrom` called by `spender`. */
    method TransferFrom(spender: Account, from: Account, to: Account, amount: nat) returns (r: Outcome)
      modifies this
      ensures SendFrom(old(State()), spender, from, to, amount) == (if r.Pass? then Ok(State()) else Err(r.error))
      ensures r.Fail? ==> State() == old(State())
    {
      if from == ZERO || to == ZERO {
        return Fail(ZeroAddress);
      }
      var fromBalance := Get(balances, from);
      if fromBalance < amount {
        return Fail(InsufficientBalance);
      }
      var allowed := Get(allowances, (from, spender));
      if allowed < amount {
        return Fail(InsufficientAllowance);
      }
      balances := balances[from := fromBalance - amount];
      balances := balances[to := Get(balances, to) + amount];
      allowances := allowances[(from, spender) := allowed - amount];
      r := Pass;
    }

    /** `_mint`: fails for the zero account ("ERC20: mint to the zero address"), else credits `to`. */
    method Mint(to: Account, amount: nat) returns (r: Outcome)
      modifies this
      ensures r == (if to == ZERO then Fail(ZeroAddress) else Pass)
      ensures balances == (if r.Pass? then Minted(old(balances), to, amount) else old(balances))
      ensures allowances == old(allowances)
    {
      if to == ZERO {
        return Fail(ZeroAddress);
      }
      balances := balances[to := Get(balances, to) + amount];
      r := Pass;
    }

    /** `_burn`: fails for the zero account or a short balance, else debits `from`. */
    method Burn(from: Account, amount: nat) returns (r: Outcome)
      modifies this
      ensures r.Pass? <==> from != ZERO && amount <= Get(old(balances), from)
      ensures r.Fail? ==> r.error == (if from == ZERO then ZeroAddress else InsufficientBalance)
      ensures balances == (if r.Pass? then Burned(old(balances), from, amount) else old(balances))
      ensures allowances == old(allowances)
    {
      if from == ZERO {
        return Fail(ZeroAddress);
      }
      var fromBalance := Get(balances, from);
      if fromBalance < amount {
        return Fail(InsufficientBalance);
      }
      balances := balances[from := fromBalance - amount];
      r := Pass;
    }

    /** `_approve`: fails for a zero party, else sets the allowance to `amount`. */
    method Approve(owner: Account, spender: Account, amount: nat) returns (r: Outcome)
      modifies this
      ensures r == (if owner == ZERO || spender == ZERO then Fail(ZeroAddress) else Pass)
      ensures allowances == (if r.Pass? then old(allowances)[(owner, spender) := amount] else old(allowances))
      ensures balances == old(balances)
    {
      if owner == ZERO || spender == ZERO {
        return Fail(ZeroAddress);
      }
      allowances := allowances[(owner, spender) := amount];
      r := Pass;
    }

    /** `increaseAllowance`: the allowance becomes the old one plus `added`; the new total is returned. */
    method IncreaseAllowance(owner: Account, spender: Account, added: nat) returns (r: Result<nat>)
      modifies this
      ensures r == (if owner == ZERO || spender == ZERO then Err(ZeroAddress)
                    else Ok(old(Allowance(owner, spender)) + added))
      ensures allowances == (if r.Ok? then old(allowances)[(owner, spender) := r.value] else old(allowances))
      ensures balances == old(balances)
    {
      var current := Get(allowances, (owner, spender));
      var approved := Approve(owner, spender, current + added);
      if approved.Fail? {
        return Err(approved.error);
      }
      r := Ok(current + added);
    }

    /**
     * `decreaseAllowance`: fails when `subtracted` exceeds the allowance
     * ("decreased allowance below zero"), else the allowance becomes the old
     * one minus `subtracted`; the new total is returned.
     */
    method DecreaseAllowance(owner: Account, spender: Account, subtracted: nat) returns (r: Result<nat>)
      modifies this
      ensures r == (if old(Allowance(owner, spender)) < subtracted then Err(InsufficientAllowance)
                    else if owner == ZERO || spender == ZERO then Err(ZeroAddress)
                    else Ok(old(Allowance(owner, spender)) - subtracted))
      ensures allowances == (if r.Ok? then old(allowances)[(owner, spender) := r.value] else old(allowances))
      ensures balances == old(balances)
    {
      var current := Get(allowances, (owner, spender));
      if current < subtracted {
        return Err(InsufficientAllowance);
      }
      var approved := Approve(owner, spender, current - subtracted);
      if approved.Fail? {
        return Err(approved.error);
      }
      r := Ok(current - subtracted);
    }
  }
}
