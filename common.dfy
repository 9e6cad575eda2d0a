/**
 * Vocabulary shared by every contract of the model: account identifiers,
 * the kinds of revert a call can end in, and the value a call returns.
 *
 * A contract call either applies completely or reverts; a revert is an
 * `Outcome.Fail` / `Result.Err` carrying the kind of failure, and the
 * methods that return one leave every piece of state unchanged.
 */
module Common {

  /** An address. The zero address is the "null" identity. */
  type Account = nat

  const ZERO: Account := 0

  /**
   * An address that can send a transaction or hold a contract: never zero.
   * Every `caller` (the transaction sender) and every contract address has this type.
   */
  type Principal = a: Account | a != ZERO witness 1

  /** The largest uint256; the tests approve it as an "unlimited" allowance. */
  const MAX_UINT256: nat := 0x1_0000_0000_0000_0000_0000_0000_0000_0000_0000_0000_0000_0000_0000_0000_0000_0000 - 1

  /** The kinds of revert, one per revert reason the tests check (plus the ERC-20 ones they go through). */
  datatype Error =
    | AlreadyInitialized             // Initializable: contract is already initialized
    | NotOwner                       // Ownable: caller is not the owner
    | NotPauser                      // PausableEx: caller is not the pauser
    | NotBlacklister                 // Blacklistable: caller is not the blacklister
    | NotWhitelister                 // Whitelistable: caller is not the whitelister
    | NotWhitelistAdmin              // Whitelistable: caller is not the whitelist admin
    | NotRescuer                     // Rescuable: caller is not the rescuer
    | ZeroAddress                    // a zero account where a real one is required
    | ContractPaused                 // Pausable: paused
    | ContractNotPaused              // Pausable: not paused
    | TransferWhilePaused            // ERC20Pausable: token transfer while paused
    | AccountBlacklisted             // Blacklistable: account is blacklisted
    | AccountNotWhitelisted          // Whitelistable: account is not whitelisted
    | InsufficientBalance            // ERC20: transfer (or burn) amount exceeds balance
    | InsufficientAllowance          // ERC20: amount exceeds allowance / decreased below zero
    | ZeroTokenAddress               // Multisend: zero token address
    | EmptyRecipients                // Multisend: recipients array is empty
    | LengthMismatch                 // Multisend: length of recipients and balances arrays must be equal
    | EmptyPrizes                    // SpinMachine: prizes array cannot be empty
    | PrizesNotSet                   // a spin drawn while no prize list was ever configured
    | CountNotPositive               // SpinMachine: spins count must be greater than 0
    | CashOutConfirmExceedsBalance   // PixCashier: cash-out confirm amount exceeds balance
    | CashOutReverseExceedsBalance   // PixCashier: cash-out reverse amount exceeds balance

  /** The result of a call that returns nothing. */
  datatype Outcome = Pass | Fail(error: Error)

  /** The result of a call that returns (or reports in an event) a value. */
  datatype Result<T> = Ok(value: T) | Err(error: Error)

  datatype Option<T> = None | Some(value: T)

  /** A total view of a table whose absent keys hold zero, as a Solidity mapping does. */
  function Get<K>(m: map<K, nat>, k: K): nat
  {
    if k in m then m[k] else 0
  }
}
