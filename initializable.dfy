/**
 * The one-shot initialisation guard of upgradeable contracts. A contract
 * deployed behind a proxy runs its initialiser once, at deployment; every
 * later call of `initialize` or `initialize_unchained` reverts with
 * "Initializable: contract is already initialized".
 */
module Initialization {
  import opened Common

  class Initializable {
    var initialized: bool

    /** Deployment: the initialiser has run. */
    constructor ()
      ensures initialized
    {
      initialized := true;
    }

    /** `initialize` / `initialize_unchained`: reverts once the contract is initialised. */
    method Initialize() returns (r: Outcome)
      modifies this
      ensures r == (if old(initialized) then Fail(AlreadyInitialized) else Pass)
      ensures initialized
    {
      if initialized {
        return Fail(AlreadyInitialized);
      }
      initialized := true;
      r := Pass;
    }
  }

  /** A deployed contract refuses a second initialisation, through either entry point. */
  method InitializeTwice(guard: Initializable) returns (first: Outcome, second: Outcome)
    requires guard.initialized
    modifies guard
    ensures first == Fail(AlreadyInitialized) && second == Fail(AlreadyInitialized)
    ensures guard.initialized
  {
    first := guard.Initialize();
    second := guard.Initialize();
  }
}
