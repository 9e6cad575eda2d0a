/**
 * Whitelistable / WhitelistableEx: an access list of accounts, kept by
 * whitelisters, who are appointed by a whitelist admin, who is appointed by
 * the owner; an enable flag switches enforcement on and off without
 * touching the list; and the `onlyWhitelisted` gate other contracts put in
 * front of their operations.
 */
module Whitelisting {
  import opened Common

  class Whitelistable {
    const owner: Principal
    var whitelistAdmin: Account
    var enabled: bool
    var whitelisters: set<Account>
    var whitelisted: set<Account>

    /** Deployment: no admin, no whitelisters, empty list, enforcement off. */
    constructor (owner: Principal)
      ensures this.owner == owner && whitelistAdmin == ZERO && !enabled
      ensures whitelisters == {} && whitelisted == {}
    {
      this.owner := owner;
      whitelistAdmin := ZERO;
      enabled := false;
      whitelisters := {};
      whitelisted := {};
    }

    function IsWhitelister(account: Account): bool
      reads this
    {
      account in whitelisters
    }

    function IsWhitelisted(account: Account): bool
      reads this
    {
      account in whitelisted
    }

    /** `setWhitelistAdmin`: owner only; afterwards `getWhitelistAdmin()` returns `account`. */
    method SetWhitelistAdmin(caller: Principal, account: Account) returns (r: Outcome)
      modifies this
      ensures r == (if caller == owner then Pass else Fail(NotOwner))
      ensures whitelistAdmin == (if r.Pass? then account else old(whitelistAdmin))
      ensures enabled == old(enabled) && whitelisters == old(whitelisters) && whitelisted == old(whitelisted)
    {
      if caller != owner {
        return Fail(NotOwner);
      }
      whitelistAdmin := account;
      r := Pass;
    }

    /**
     * `setWhitelistEnabled`: owner only; afterwards `isWhitelistEnabled()`
     * returns `value`. The list itself is untouched.
     */
    method SetWhitelistEnabled(caller: Principal, value: bool) returns (r: Result<bool>)
      modifies this
      ensures r == (if caller == owner then Ok(value) else Err(NotOwner))
      ensures enabled == (if r.Ok? then value else old(enabled))
      ensures whitelistAdmin == old(whitelistAdmin) && whitelisters == old(whitelisters) && whitelisted == old(whitelisted)
    {
      if caller != owner {
        return Err(NotOwner);
      }
      enabled := value;
      r := Ok(value);
    }

    /**
     * `updateWhitelister(account, value)`: whitelist admin only (the owner is
     * not implicitly the admin); sets or clears the whitelister status of
     * `account` and of no other account. The event carries `(account, value)`.
     */
    method UpdateWhitelister(caller: Principal, account: Account, value: bool) returns (r: Result<(Account, bool)>)
      modifies this
      ensures r == (if caller == old(whitelistAdmin) then Ok((account, value)) else Err(NotWhitelistAdmin))
      ensures whitelisters == if r.Err? then old(whitelisters)
                              else if value then old(whitelisters) + {account}
                              else old(whitelisters) - {account}
      ensures whitelistAdmin == old(whitelistAdmin) && enabled == old(enabled) && whitelisted == old(whitelisted)
    {
      if caller != whitelistAdmin {
        return Err(NotWhitelistAdmin);
      }
      if value {
        whitelisters := whitelisters + {account};
      } else {
        whitelisters := whitelisters - {account};
      }
      r := Ok((account, value));
    }

    /** `whitelist`: whitelisters only; afterwards `account` is whitelisted, nobody else changes. */
    method Whitelist(caller: Principal, account: Account) returns (r: Outcome)
      modifies this
      ensures r == (if caller in old(whitelisters) then Pass else Fail(NotWhitelister))
      ensures whitelisted == (if r.Pass? then old(whitelisted) + {account} else old(whitelisted))
      ensures whitelistAdmin == old(whitelistAdmin) && enabled == old(enabled) && whitelisters == old(whitelisters)
    {
      if caller !in whitelisters {
        return Fail(NotWhitelister);
      }
      whitelisted := whitelisted + {account};
      r := Pass;
    }

    /** `unWhitelist`: whitelisters only; afterwards `account` is not whitelisted, nobody else changes. */
    method UnWhitelist(caller: Principal, account: Account) returns (r: Outcome)
      modifies this
      ensures r == (if caller in old(whitelisters) then Pass else Fail(NotWhitelister))
      ensures whitelisted == (if r.Pass? then old(whitelisted) - {account} else old(whitelisted))
      ensures whitelistAdmin == old(whitelistAdmin) && enabled == old(enabled) && whitelisters == old(whitelisters)
    {
      if caller !in whitelisters {
        return Fail(NotWhitelister);
      }
      whitelisted := whitelisted - {account};
      r := Pass;
    }

    /** The `onlyWhitelistAdmin` gate: passes exactly for the current admin. */
    function OnlyWhitelistAdmin(caller: Principal): (r: Outcome)
      reads this
      ensures r.Pass? <==> caller == whitelistAdmin
      ensures r.Fail? ==> r.error == NotWhitelistAdmin
    {
      if caller == whitelistAdmin then Pass else Fail(NotWhitelistAdmin)
    }

    /**
     * The `onlyWhitelisted` gate: fails only while enforcement is on and
     * `account` is not on the list; with enforcement off it passes for everybody.
     */
    function OnlyWhitelisted(account: Account): (r: Outcome)
      reads this
      ensures r.Pass? <==> !enabled || IsWhitelisted(account)
      ensures r.Fail? ==> r.error == AccountNotWhitelisted
    {
      if enabled && account !in whitelisted then Fail(AccountNotWhitelisted) else Pass
    }
  }

  /**
   * Switching enforcement off admits everybody; switching it back on
   * restores the old verdicts without anyone having to be re-added.
   */
  method ToggleEnforcement(w: Whitelistable, account: Principal) returns (off: Outcome, on: Outcome)
    requires w.enabled
    modifies w
    ensures off == Pass
    ensures on == old(w.OnlyWhitelisted(account))
    ensures w.enabled && w.whitelisted == old(w.whitelisted)
  {
    var _ := w.SetWhitelistEnabled(w.owner, false);
    off := w.OnlyWhitelisted(account);
    var _ := w.SetWhitelistEnabled(w.owner, true);
    on := w.OnlyWhitelisted(account);
  }

  /**
   * Whitelisting then unwhitelisting an account, by a whitelister, with
   * enforcement on: the gate admits the account in between and rejects it
   * afterwards, and the rest of the list is as it was.
   */
  method WhitelistThenUnWhitelist(w: Whitelistable, whitelister: Principal, account: Principal)
      returns (admitted: Outcome, rejected: Outcome)
    requires w.enabled && whitelister in w.whitelisters
    modifies w
    ensures admitted == Pass && rejected == Fail(AccountNotWhitelisted)
    ensures w.whitelisted == old(w.whitelisted) - {account}
  {
    var _ := w.Whitelist(whitelister, account);
    admitted := w.OnlyWhitelisted(account);
    var _ := w.UnWhitelist(whitelister, account);
    rejected := w.OnlyWhitelisted(account);
  }
}
