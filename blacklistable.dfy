/**
 * Blacklistable: a set of blocked accounts kept by a blacklister role that
 * only the owner can assign, plus self-blacklisting open to every account,
 * and the `notBlacklisted` gate other contracts put in front of their
 * operations.
 */
module Blacklisting {
  import opened Common

  /** The notifications of this mixin; `selfBlacklist` emits two of them. */
  datatype BlacklistEvent =
    | Blacklisted(account: Account)
    | UnBlacklisted(account: Account)
    | SelfBlacklisted(account: Account)

  class Blacklistable {
    const owner: Principal
    var blacklister: Account
    var blacklisted: set<Account>

    /** Deployment: no blacklister, nobody blacklisted. */
    constructor (owner: Principal)
      ensures this.owner == owner && blacklister == ZERO && blacklisted == {}
    {
      this.owner := owner;
      blacklister := ZERO;
      blacklisted := {};
    }

    function IsBlacklisted(account: Account): bool
      reads this
    {
      account in blacklisted
    }

    /**
     * `setBlacklister`: owner only, and never the zero address; afterwards
     * `getBlacklister()` returns `account`.
     */
    method SetBlacklister(caller: Principal, account: Account) returns (r: Outcome)
      modifies this
      ensures r == (if caller != owner then Fail(NotOwner)
                    else if account == ZERO then Fail(ZeroAddress)
                    else Pass)
      ensures blacklister == (if r.Pass? then account else old(blacklister))
      ensures blacklisted == old(blacklisted)
    {
      if caller != owner {
        return Fail(NotOwner);
      }
      if account == ZERO {
        return Fail(ZeroAddress);
      }
      blacklister := account;
      r := Pass;
    }

    /** `blacklist`: blacklister only; afterwards `account` is blacklisted, nobody else changes. */
    method Blacklist(caller: Principal, account: Account) returns (r: Result<BlacklistEvent>)
      modifies this
      ensures r == (if caller == old(blacklister) then Ok(Blacklisted(account)) else Err(NotBlacklister))
      ensures blacklisted == (if r.Ok? then old(blacklisted) + {account} else old(blacklisted))
      ensures blacklister == old(blacklister)
    {
      if caller != blacklister {
        return Err(NotBlacklister);
      }
      blacklisted := blacklisted + {account};
      r := Ok(Blacklisted(account));
    }

    /** `unBlacklist`: blacklister only; afterwards `account` is not blacklisted, nobody else changes. */
    method UnBlacklist(caller: Principal, account: Account) returns (r: Result<BlacklistEvent>)
      modifies this
      ensures r == (if caller == old(blacklister) then Ok(UnBlacklisted(account)) else Err(NotBlacklister))
      ensures blacklisted == (if r.Ok? then old(blacklisted) - {account} else old(blacklisted))
      ensures blacklister == old(blacklister)
    {
      if caller != blacklister {
        return Err(NotBlacklister);
      }
      blacklisted := blacklisted - {account};
      r := Ok(UnBlacklisted(account));
    }

    /**
     * `selfBlacklist`: any account blacklists itself; it never reverts,
     * also when repeated, and emits `Blacklisted` and then `SelfBlacklisted`.
     */
    method SelfBlacklist(caller: Principal) returns (events: seq<BlacklistEvent>)
      modifies this
      ensures events == [Blacklisted(caller), SelfBlacklisted(caller)]
      ensures blacklisted == old(blacklisted) + {caller}
      ensures blacklister == old(blacklister)
    {
      blacklisted := blacklisted + {caller};
      events := [Blacklisted(caller), SelfBlacklisted(caller)];
    }

    /** The `notBlacklisted` gate: fails exactly for a blacklisted account. */
    function NotBlacklisted(account: Account): (r: Outcome)
      reads this
      ensures r.Pass? <==> !IsBlacklisted(account)
      ensures r.Fail? ==> r.error == AccountBlacklisted
    {
      if account in blacklisted then Fail(AccountBlacklisted) else Pass
    }
  }

  /** `blacklist(a)` then `unBlacklist(a)` by the blacklister leaves `a` not blacklisted, whatever it was before. */
  method BlacklistThenUnBlacklist(b: Blacklistable, account: Account) returns (first: Result<BlacklistEvent>, second: Result<BlacklistEvent>)
    requires b.blacklister != ZERO
    modifies b
    ensures first.Ok? && second.Ok?
    ensures !b.IsBlacklisted(account)
    ensures b.blacklisted == old(b.blacklisted) - {account}
  {
    var caller: Principal := b.blacklister;
    first := b.Blacklist(caller, account);
    second := b.UnBlacklist(caller, account);
  }
}
