/**
 * Rescuable: a rescuer role, assigned by the owner, that can move any
 * ERC-20 tokens held by the contract to another account (tokens sent to
 * the contract by mistake).
 */
module Rescue {
  import opened Common
  import opened Erc20

  class Rescuable {
    const owner: Principal
    /** The address of the contract that holds the tokens. */
    const address: Principal
    var rescuer: Account

    /** Deployment: no rescuer assigned. */
    constructor (owner: Principal, address: Principal)
      ensures this.owner == owner && this.address == address && rescuer == ZERO
    {
      this.owner := owner;
      this.address := address;
      rescuer := ZERO;
    }

    /** `setRescuer`: owner only; afterwards `getRescuer()` returns `account`. */
    method SetRescuer(caller: Principal, account: Account) returns (r: Outcome)
      modifies this
      ensures r == (if caller == owner then Pass else Fail(NotOwner))
      ensures rescuer == (if r.Pass? then account else old(rescuer))
    {
      if caller != owner {
        return Fail(NotOwner);
      }
      rescuer := account;
      r := Pass;
    }

    /**
     * `rescueERC20(token, to, amount)`: rescuer only; moves exactly `amount`
     * of `token` from the contract's balance to `to`, as a transfer does.
     */
    method RescueErc20(caller: Principal, token: Token, to: Account, amount: nat) returns (r: Outcome)
      modifies token
      ensures caller != rescuer ==> r == Fail(NotRescuer)
      ensures caller == rescuer ==>
        Send(old(token.balances), address, to, amount) == (if r.Pass? then Ok(token.balances) else Err(r.error))
      ensures r.Fail? ==> token.balances == old(token.balances)
      ensures token.allowances == old(token.allowances)
    {
      if caller != rescuer {
        return Fail(NotRescuer);
      }
      r := token.Transfer(address, to, amount);
    }
  }
}
