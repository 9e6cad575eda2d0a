/**
 * The BRLC token: an ERC-20 ledger whose every mutator is refused while the
 * token is paused and whenever one of the two parties it names is
 * blacklisted, with the `increaseAllowance` / `decreaseAllowance`
 * extensions and a pre-transfer hook that refuses token movements while
 * paused. Pausing and blacklisting are the PausableEx and Blacklistable
 * mixins, held by the token and sharing its owner.
 */
module Brlc {
  import opened Common
  import opened Erc20
  import opened Pausable
  import opened Blacklisting
  import opened Initialization

  /**
   * The gate of every BRLC mutator: `whenNotPaused`, then `notBlacklisted`
   * on the two parties the operation names.
   */
  function Guard(paused: bool, blacklisted: set<Account>, first: Account, second: Account): (r: Outcome)
    ensures r.Pass? <==> !paused && first !in blacklisted && second !in blacklisted
    ensures paused ==> r == Fail(ContractPaused)
    ensures !paused && r.Fail? ==> r == Fail(AccountBlacklisted)
  {
    if paused then Fail(ContractPaused)
    else if first in blacklisted || second in blacklisted then Fail(AccountBlacklisted)
    else Pass
  }

  class BrlcToken {
    const owner: Principal
    const ledger: Token
    const pausable: PausableEx
    const blacklistable: Blacklistable
    const init: Initializable

    /** Deployment and initialisation: empty ledger, not paused, nobody blacklisted. */
    constructor (owner: Principal)
      ensures this.owner == owner && pausable.owner == owner && blacklistable.owner == owner
      ensures fresh(ledger) && fresh(pausable) && fresh(blacklistable) && fresh(init)
      ensures ledger.balances == map[] && ledger.allowances == map[]
      ensures !pausable.paused && pausable.pauser == ZERO
      ensures blacklistable.blacklisted == {} && blacklistable.blacklister == ZERO
      ensures init.initialized
    {
      this.owner := owner;
      ledger := new Token();
      pausable := new PausableEx(owner);
      blacklistable := new Blacklistable(owner);
      init := new Initializable();
    }

    /** The gate as it stands for two parties. */
    function Gate(first: Account, second: Account): Outcome
      reads pausable, blacklistable
    {
      Guard(pausable.paused, blacklistable.blacklisted, first, second)
    }

    /** `_beforeTokenTransfer`: refuses any token movement exactly while paused. */
    function BeforeTokenTransfer(from: Account, to: Account, amount: nat): (r: Outcome)
      reads pausable
      ensures r.Pass? <==> !pausable.paused
      ensures r.Fail? ==> r.error == TransferWhilePaused
    {
      if pausable.paused then Fail(TransferWhilePaused) else Pass
    }

    /**
     * `transfer(to, amount)` by `caller`: refused while paused or when the
     * caller or the recipient is blacklisted; otherwise an ERC-20 transfer of
     * exactly `amount` from the caller to `to`.
     */
    method Transfer(caller: Principal, to: Account, amount: nat) returns (r: Outcome)
      modifies ledger
      ensures Gate(caller, to).Fail? ==> r == Gate(caller, to)
      ensures Gate(caller, to).Pass? ==>
        Send(old(ledger.balances), caller, to, amount) == (if r.Pass? then Ok(ledger.balances) else Err(r.error))
      ensures r.Fail? ==> ledger.balances == old(ledger.balances)
      ensures ledger.allowances == old(ledger.allowances)
    {
      r := Gate(caller, to);
      if r.Fail? {
        return;
      }
      r := ledger.Transfer(caller, to, amount);
    }

    /**
     * `transferFrom(from, to, amount)` by the spender `caller`: the blacklist
     * check is on `from` and `to`, not on the spender; otherwise an ERC-20
     * `transferFrom`.
     */
    method TransferFrom(caller: Principal, from: Account, to: Account, amount: nat) returns (r: Outcome)
      modifies ledger
      ensures Gate(from, to).Fail? ==> r == Gate(from, to)
      ensures Gate(from, to).Pass? ==>
        SendFrom(old(ledger.State()), caller, from, to, amount) == (if r.Pass? then Ok(ledger.State()) else Err(r.error))
      ensures r.Fail? ==> ledger.State() == old(ledger.State())
    {
      r := Gate(from, to);
      if r.Fail? {
        return;
      }
      r := ledger.TransferFrom(caller, from, to, amount);
    }

    /**
     * `approve(spender, amount)` by `caller`: refused while paused or when
     * the caller or the spender is blacklisted; otherwise
     * `allowance(caller, spender)` becomes `amount`.
     */
    method Approve(caller: Principal, spender: Account, amount: nat) returns (r: Outcome)
      modifies ledger
      ensures Gate(caller, spender).Fail? ==> r == Gate(caller, spender)
      ensures Gate(caller, spender).Pass? ==> r == (if spender == ZERO then Fail(ZeroAddress) else Pass)
      ensures r.Pass? ==> ledger.allowances == old(ledger.allowances)[(caller, spender) := amount]
      ensures r.Fail? ==> ledger.allowances == old(ledger.allowances)
      ensures ledger.balances == old(ledger.balances)
    {
      r := Gate(caller, spender);
      if r.Fail? {
        return;
      }
      r := ledger.Approve(caller, spender, amount);
    }

    /**
     * `increaseAllowance(spender, added)`: same gate as `approve`; the
     * allowance becomes the old one plus `added`, and that total is reported.
     */
    method IncreaseAllowance(caller: Principal, spender: Account, added: nat) returns (r: Result<nat>)
      modifies ledger
      ensures Gate(caller, spender).Fail? ==> r == Err(Gate(caller, spender).error)
      ensures Gate(caller, spender).Pass? ==>
        r == (if spender == ZERO then Err(ZeroAddress) else Ok(old(ledger.Allowance(caller, spender)) + added))
      ensures ledger.allowances == (if r.Ok? then old(ledger.allowances)[(caller, spender) := r.value] else old(ledger.allowances))
      ensures ledger.balances == old(ledger.balances)
    {
      var gate := Gate(caller, spender);
      if gate.Fail? {
        return Err(gate.error);
      }
      r := ledger.IncreaseAllowance(caller, spender, added);
    }

    /**
     * `decreaseAllowance(spender, subtracted)`: same gate as `approve`;
     * refused when `subtracted` exceeds the allowance, else the allowance
     * becomes the old one minus `subtracted`, and that total is reported.
     */
    method DecreaseAllowance(caller: Principal, spender: Account, subtracted: nat) returns (r: Result<nat>)
      modifies ledger
      ensures Gate(caller, spender).Fail? ==> r == Err(Gate(caller, spender).error)
      ensures Gate(caller, spender).Pass? ==>
        r == (if old(ledger.Allowance(caller, spender)) < subtracted then Err(InsufficientAllowance)
              else if spender == ZERO then Err(ZeroAddress)
              else Ok(old(ledger.Allowance(caller, spender)) - subtracted))
      ensures ledger.allowances == (if r.Ok? then old(ledger.allowances)[(caller, spender) := r.value] else old(ledger.allowances))
      ensures ledger.balances == old(ledger.balances)
    {
      var gate := Gate(caller, spender);
      if gate.Fail? {
        return Err(gate.error);
      }
      r := ledger.DecreaseAllowance(caller, spender, subtracted);
    }

    /**
     * The minting helper of the token mock: the ERC-20 `_mint` refuses the
     * zero account first, then goes through the pre-transfer hook.
     */
    method Mint(account: Account, amount: nat) returns (r: Outcome)
      modifies ledger
      ensures r == (if account == ZERO then Fail(ZeroAddress)
                    else if pausable.paused then Fail(TransferWhilePaused)
                    else Pass)
      ensures ledger.balances == (if r.Pass? then Minted(old(ledger.balances), account, amount) else old(ledger.balances))
      ensures ledger.allowances == old(ledger.allowances)
    {
      if account == ZERO {
        return Fail(ZeroAddress);
      }
      r := BeforeTokenTransfer(ZERO, account, amount);
      if r.Fail? {
        return;
      }
      r := ledger.Mint(account, amount);
    }
  }

  /**
   * A transfer on a running token between two accounts that are not
   * blacklisted, by a caller holding at least `amount`, succeeds and moves
   * exactly `amount` from the caller to the recipient, leaving every other
   * balance as it was.
   */
  method TransferMovesAmount(t: BrlcToken, caller: Principal, to: Principal, amount: nat) returns (r: Outcome)
    requires !t.pausable.paused && caller !in t.blacklistable.blacklisted && to !in t.blacklistable.blacklisted
    requires caller != to && amount <= t.ledger.BalanceOf(caller)
    modifies t.ledger
    ensures r == Pass
    ensures t.ledger.BalanceOf(caller) == old(t.ledger.BalanceOf(caller)) - amount
    ensures t.ledger.BalanceOf(to) == old(t.ledger.BalanceOf(to)) + amount
    ensures forall a :: a != caller && a != to ==> t.ledger.BalanceOf(a) == old(t.ledger.BalanceOf(a))
  {
    r := t.Transfer(caller, to, amount);
  }
}
