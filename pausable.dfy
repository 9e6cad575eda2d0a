/**
 * PausableEx: a pause switch operated by a dedicated pauser role that only
 * the owner can assign. The owner is not implicitly the pauser.
 */
module Pausable {
  import opened Common

  class PausableEx {
    const owner: Principal
    var pauser: Account
    var paused: bool

    /** Deployment: no pauser assigned, not paused. */
    constructor (owner: Principal)
      ensures this.owner == owner && pauser == ZERO && !paused
    {
      this.owner := owner;
      pauser := ZERO;
      paused := false;
    }

    /** `setPauser`: owner only; afterwards `getPauser()` returns `account`. */
    method SetPauser(caller: Principal, account: Account) returns (r: Outcome)
      modifies this
      ensures r == (if caller == owner then Pass else Fail(NotOwner))
      ensures pauser == (if r.Pass? then account else old(pauser))
      ensures paused == old(paused)
    {
      if caller != owner {
        return Fail(NotOwner);
      }
      pauser := account;
      r := Pass;
    }

    /**
     * `pause`: pauser only, and only while running (the inherited `_pause`
     * is itself `whenNotPaused`); afterwards `paused()` is true.
     */
    method Pause(caller: Principal) returns (r: Outcome)
      modifies this
      ensures r == (if caller != old(pauser) then Fail(NotPauser)
                    else if old(paused) then Fail(ContractPaused)
                    else Pass)
      ensures paused == (r.Pass? || old(paused))
      ensures pauser == old(pauser)
    {
      if caller != pauser {
        return Fail(NotPauser);
      }
      if paused {
        return Fail(ContractPaused);
      }
      paused := true;
      r := Pass;
    }

    /**
     * `unpause`: pauser only, and only while paused (the inherited
     * `_unpause` is `whenPaused`); afterwards `paused()` is false.
     */
    method Unpause(caller: Principal) returns (r: Outcome)
      modifies this
      ensures r == (if caller != old(pauser) then Fail(NotPauser)
                    else if !old(paused) then Fail(ContractNotPaused)
                    else Pass)
      ensures paused == (r.Fail? && old(paused))
      ensures pauser == old(pauser)
    {
      if caller != pauser {
        return Fail(NotPauser);
      }
      if !paused {
        return Fail(ContractNotPaused);
      }
      paused := false;
      r := Pass;
    }

    /** The `whenNotPaused` gate: passes exactly while the contract is not paused. */
    function WhenNotPaused(): (r: Outcome)
      reads this
      ensures r.Pass? <==> !paused
      ensures r.Fail? ==> r.error == ContractPaused
    {
      if paused then Fail(ContractPaused) else Pass
    }
  }

  /**
   * Holding another role confers nothing: any caller other than the pauser,
   * the owner included, fails to pause and leaves the switch as it was. In
   * particular nobody can pause while no pauser is assigned, because no
   * transaction sender is the zero address.
   */
  method PauseByOtherFails(p: PausableEx, caller: Principal) returns (r: Outcome)
    requires caller != p.pauser
    modifies p
    ensures r == Fail(NotPauser) && p.paused == old(p.paused) && p.pauser == old(p.pauser)
  {
    r := p.Pause(caller);
  }

  /**
   * Pausing then unpausing a running contract, by the pauser: both calls
   * succeed, the `whenNotPaused` gate refuses in between and passes
   * afterwards, and a second pause or unpause in a row is refused.
   */
  method PauseThenUnpause(p: PausableEx) returns (during: Outcome, after: Outcome)
    requires p.pauser != ZERO && !p.paused
    modifies p
    ensures during == Fail(ContractPaused) && after == Pass
    ensures !p.paused && p.pauser == old(p.pauser)
  {
    var paused := p.Pause(p.pauser);
    assert paused == Pass;
    var again := p.Pause(p.pauser);
    assert again == Fail(ContractPaused);
    during := p.WhenNotPaused();
    var unpaused := p.Unpause(p.pauser);
    assert unpaused == Pass;
    var twice := p.Unpause(p.pauser);
    assert twice == Fail(ContractNotPaused);
    after := p.WhenNotPaused();
  }
}
