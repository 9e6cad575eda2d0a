# BRLC token family — a verified Dafny model

This project models the behaviour of the BRLC token family of Solidity
contracts, as their Hardhat test suite fixes it. The family is:

- the BRLC token: an ERC-20 ledger gated by a pause switch and a blacklist;
- Multisend: batch payouts from the contract's own balance;
- PixCashier: a cash-in / cash-out escrow between BRLC and PIX payments;
- SpinMachine: a reward wheel with a free spin per cool-down period and purchasable extra spins;
- the access-control mixins that all of them share: Initializable, PausableEx, Blacklistable, Whitelistable / WhitelistableEx and Rescuable.

Every contract call either applies completely or reverts. Accordingly, every
method returns an `Outcome` (`Pass` / `Fail(error)`) or a `Result<T>`. A
failing call leaves all state as it was. The revert reasons are the kinds of
the `Error` datatype. The transaction sender is a `caller` parameter. The
block timestamp is a `now` parameter. The random provider's number is a
`rand` parameter.

Layout, one module per contract:

- `common.dfy` (`Common`): accounts (the zero address is `ZERO`), errors, `Outcome`/`Result`/`Option`, and the total map view `Get`.
- `erc20.dfy` (`Erc20`): the ERC-20 ledger. It has pure specification functions (`Moved`, `Minted`, `Burned`, `Send`, `SendFrom`) and a `Token` class whose methods update the balance and allowance maps in place. Each method is proved against those functions.
- `initializable.dfy`, `pausable.dfy`, `blacklistable.dfy`, `whitelistable.dfy`, `rescuable.dfy`: one class per mixin. Each has role fields, set fields, owner- or role-gated setters, and the gate functions the modifiers stand for (`WhenNotPaused`, `NotBlacklisted`, `OnlyWhitelisted`, `OnlyWhitelistAdmin`).
- `brlc_token.dfy` (`Brlc`): `BrlcToken` holds a ledger and its mixins. The `Guard` function states the gate in front of every mutator.
- `multisend.dfy` (`Multisending`): `Sends` folds the ERC-20 transfer over a batch. `Sum` and `Credited` state its totals. `Multisend.MultisendToken` runs the transfers in a loop and is proved equal to the fold. The lemmas prove conservation and the success condition.
- `pix_cashier.dfy` (`Pix`): `Apply` gives the effect of one cashier operation on the token tables and the escrow table, and `Run` applies a sequence of them. Lemmas state each operation's effect and the conservation identities over any run. The `PixCashier` methods are proved against `Apply`.
- `spin_machine.dfy` (`Rewards`): the per-account `Wheel` and `SpinStep`, which is what one spin does. Lemmas cover idle spins, draws, exhaustion and the cool-down window bound. The `SpinMachine` class keeps the configuration and the per-account maps, and its `Spin` method is proved against `SpinStep`.

Contracts are composed by delegation. A top-level contract holds its mixins
as `const` object fields created by its constructor. For example, a
Multisend's pauser is `m.pausable.pauser` and pausing it is
`m.pausable.Pause(caller)`. The constructor models deployment plus
`initialize`, so a deployed contract's `init.initialized` flag is set.

Decisions the tests leave open, and how the model settles them:

- The ledger follows the OpenZeppelin 4.3 ERC-20:
  - zero-address checks come before the balance check;
  - `transferFrom` checks the balance before the allowance and always lowers the allowance, including the maximal one;
  - `decreaseAllowance` checks "below zero" before the zero-address check.
  - `_mint` refuses the zero account before the pre-transfer hook runs, so minting to the zero account on a paused BRLC token reports the zero address.
- `pause` and `unpause` follow OpenZeppelin's `PausableUpgradeable`: after the pauser check, pausing a paused contract fails with "Pausable: paused" and unpausing a running one fails with "Pausable: not paused".
- Every BRLC mutator checks the pause switch first, then the blacklist status of its two parties. The two blacklist failures share one error, so their order is invisible.
- `multisendToken`, `cashIn` and `spin` check pause first, then the whitelist.
- `cashOut` and `buyExtraSpin` pull tokens with `transferFrom`, with the cashier or the machine as spender. The tests approve these contracts before calling them.
- A free spin is available when `lastFreeSpin + freeSpinDelay <= now`.
- `freeSpinDelay`, `extraSpinPrice` and the faucet start at zero, and the prize list starts empty.
- An eligible spin on a funded machine that never had a prize list fails with `PrizesNotSet`. This stands for the division by zero of the modulo. The tests never exercise it.
- A spin that does not revert reports `refundTo = Some(caller)` exactly when a faucet is set.

## Model

| member | source | states |
|---|---|---|
| `Erc20.Moved` | test/tokens/BRLCTokenUpgradeable.test.ts:73-82 | a transfer debits the sender and credits the recipient by exactly the amount; every other balance is unchanged |
| `Erc20.Minted` | test/periphery/PixCashierUpgradeable.test.ts:103-113 | minting credits exactly the amount to the account and to nobody else |
| `Erc20.Burned` | test/periphery/PixCashierUpgradeable.test.ts:198-213 | burning debits exactly the amount from the holder and from nobody else |
| `Erc20.Send` | test/tokens/BRLCTokenUpgradeable.test.ts:73-82 | `_transfer` succeeds exactly for real parties and a sufficient balance, else fails with the zero-address or the balance error; a success keeps the two parties' total and every other balance |
| `Erc20.SendFrom` | test/tokens/BRLCTokenUpgradeable.test.ts:132-180 | `transferFrom` succeeds exactly when the transfer would and the allowance covers the amount; a failing transfer's error comes first, else the allowance error; the balances are those of the transfer |
| `Erc20.SendFromEffect` | test/tokens/BRLCTokenUpgradeable.test.ts:164-173 | a `transferFrom` that goes through had real parties, enough balance and enough allowance; it moves the amount and lowers only that allowance by the amount |
| `Erc20.Token.constructor` | test/periphery/MultisendUpgradeable.test.ts:23-27 | a freshly deployed token has no balances and no allowances |
| `Erc20.Token.Transfer` | test/periphery/MultisendUpgradeable.test.ts:115-119 | the transfer succeeds or fails exactly as `Send` does ("transfer amount exceeds balance" for a short balance); a failure changes nothing |
| `Erc20.Token.TransferFrom` | test/periphery/PixCashierUpgradeable.test.ts:140-161 | the transfer succeeds or fails exactly as `SendFrom` does, on both tables; a failure changes nothing |
| `Erc20.Token.Mint` | test/periphery/PixCashierUpgradeable.test.ts:98-101 | mint to the zero address fails; otherwise the account is credited with the amount |
| `Erc20.Token.Burn` | test/periphery/PixCashierUpgradeable.test.ts:198-213 | burn succeeds exactly when the holder is real and holds the amount, and then debits it |
| `Erc20.Token.Approve` | test/tokens/BRLCTokenUpgradeable.test.ts:117-123 | a successful approve sets the (owner, spender) allowance to the amount and touches no balance |
| `Erc20.Token.IncreaseAllowance` | test/tokens/BRLCTokenUpgradeable.test.ts:213-225 | the allowance becomes old + added, and the new total is returned |
| `Erc20.Token.DecreaseAllowance` | test/tokens/BRLCTokenUpgradeable.test.ts:259-272 | fails below zero; otherwise the allowance becomes old − subtracted, and the new total is returned |
| `Initialization.Initializable.constructor` | test/base/RescuableUpgradeable.test.ts:24-32 | a deployed contract is initialised |
| `Initialization.Initializable.Initialize` | test/tokens/BRLCTokenUpgradeable.test.ts:32-40 | `initialize` fails with AlreadyInitialized once the contract is initialised, and leaves it initialised |
| `Initialization.InitializeTwice` | test/periphery/PixCashierUpgradeable.test.ts:65-68 | on a deployed contract, both a second `initialize` and a repeated one fail |
| `Pausable.PausableEx.constructor` | test/base/PausableExUpgradeable.test.ts:7-22 | a fresh contract has no pauser and is not paused |
| `Pausable.PausableEx.SetPauser` | test/base/PausableExUpgradeable.test.ts:34-53 | only the owner may set the pauser; afterwards `getPauser()` is the new account |
| `Pausable.PausableEx.Pause` | test/base/PausableExUpgradeable.test.ts:56-77 | only the pauser may pause, and only a running contract ("Pausable: paused" otherwise); on success `paused()` is true, on failure it is unchanged |
| `Pausable.PausableEx.Unpause` | test/base/PausableExUpgradeable.test.ts:80-103 | only the pauser may unpause, and only a paused contract ("Pausable: not paused" otherwise); on success `paused()` is false, on failure it is unchanged |
| `Pausable.PausableEx.WhenNotPaused` | test/tokens/BRLCTokenUpgradeable.test.ts:50-57 | the `whenNotPaused` gate passes exactly when not paused, and otherwise fails with ContractPaused |
| `Pausable.PauseByOtherFails` | test/base/PausableExUpgradeable.test.ts:56-65 | any caller other than the pauser, the owner included, fails to pause and the switch is unchanged; with no pauser assigned nobody can pause |
| `Pausable.PauseThenUnpause` | test/base/PausableExUpgradeable.test.ts:80-97 | the pauser pausing then unpausing a running contract: both succeed, a repeated pause or unpause is refused, and the `whenNotPaused` gate refuses in between and passes afterwards |
| `Blacklisting.Blacklistable.constructor` | test/base/BlacklistableUpgradeable.test.ts:7-25 | a fresh contract has no blacklister and an empty blacklist |
| `Blacklisting.Blacklistable.SetBlacklister` | test/base/BlacklistableUpgradeable.test.ts:37-61 | fails for a non-owner, then for the zero address; otherwise `getBlacklister()` is the new account |
| `Blacklisting.Blacklistable.Blacklist` | test/base/BlacklistableUpgradeable.test.ts:64-86 | only the blacklister may blacklist; on success the account is blacklisted and the `Blacklisted` event names it |
| `Blacklisting.Blacklistable.UnBlacklist` | test/base/BlacklistableUpgradeable.test.ts:89-113 | only the blacklister may unblacklist; on success the account is no longer blacklisted |
| `Blacklisting.Blacklistable.SelfBlacklist` | test/base/BlacklistableUpgradeable.test.ts:116-139 | any caller, any number of times, blacklists itself, with the `Blacklisted` and `SelfBlacklisted` events |
| `Blacklisting.Blacklistable.NotBlacklisted` | test/base/BlacklistableUpgradeable.test.ts:142-157 | the `notBlacklisted` gate fails exactly for a blacklisted account |
| `Blacklisting.BlacklistThenUnBlacklist` | test/base/BlacklistableUpgradeable.test.ts:89-107 | with a blacklister assigned, blacklisting then unblacklisting leaves the account not blacklisted and the rest of the list as it was |
| `Whitelisting.Whitelistable.constructor` | test/base/WhitelistableExUpgradeable.test.ts:41-46 | a fresh contract has its whitelist disabled and empty, and no admin or whitelisters |
| `Whitelisting.Whitelistable.SetWhitelistAdmin` | test/base/WhitelistableUpgradeable.test.ts:36-55 | only the owner may set the admin; afterwards `getWhitelistAdmin()` is the new account |
| `Whitelisting.Whitelistable.SetWhitelistEnabled` | test/base/WhitelistableExUpgradeable.test.ts:35-53 | only the owner may switch enforcement; afterwards `isWhitelistEnabled()` is the given value |
| `Whitelisting.Whitelistable.UpdateWhitelister` | test/base/WhitelistableExUpgradeable.test.ts:55-86 | only the admin (not the owner as such) may update; it sets or clears exactly that account's whitelister status and reports (account, value) |
| `Whitelisting.Whitelistable.Whitelist` | test/base/WhitelistableUpgradeable.test.ts:87-110 | only a whitelister may whitelist; on success the account is whitelisted |
| `Whitelisting.Whitelistable.UnWhitelist` | test/base/WhitelistableUpgradeable.test.ts:112-137 | only a whitelister may unwhitelist; on success the account is no longer whitelisted |
| `Whitelisting.Whitelistable.OnlyWhitelistAdmin` | test/base/WhitelistableUpgradeable.test.ts:58-69 | the `onlyWhitelistAdmin` gate passes exactly for the current admin |
| `Whitelisting.Whitelistable.OnlyWhitelisted` | test/base/WhitelistableUpgradeable.test.ts:140-163 | the `onlyWhitelisted` gate fails exactly when enforcement is on and the account is not whitelisted |
| `Whitelisting.ToggleEnforcement` | test/base/WhitelistableUpgradeable.test.ts:158-163 | with enforcement switched off the gate passes for anyone; switched back on, it answers as before and membership is untouched |
| `Whitelisting.WhitelistThenUnWhitelist` | test/rewards/SpinMachineUpgradeable.test.ts:577-596 | with enforcement on, a whitelister whitelisting then unwhitelisting an account: the gate admits it in between and rejects it afterwards; the rest of the list is unchanged |
| `Rescue.Rescuable.constructor` | test/base/RescuableUpgradeable.test.ts:7-22 | a fresh contract has no rescuer |
| `Rescue.Rescuable.SetRescuer` | test/base/RescuableUpgradeable.test.ts:34-53 | only the owner may set the rescuer; afterwards `getRescuer()` is the new account |
| `Rescue.Rescuable.RescueErc20` | test/base/RescuableUpgradeable.test.ts:56-83 | only the rescuer may rescue; a rescue is an ERC-20 transfer of exactly the amount from the contract to the recipient |
| `Brlc.Guard` | test/tokens/BRLCTokenUpgradeable.test.ts:50-71 | a BRLC mutator passes its gate exactly when the token is running and neither named party is blacklisted; it fails with ContractPaused while paused, else with AccountBlacklisted |
| `Brlc.BrlcToken.constructor` | test/tokens/BRLCTokenUpgradeable.test.ts:22-30 | a deployed token is initialised, empty, running, with no pauser, no blacklister and nobody blacklisted |
| `Brlc.BrlcToken.BeforeTokenTransfer` | test/tokens/BRLCTokenUpgradeable.test.ts:275-290 | the pre-transfer hook fails exactly while paused, with "token transfer while paused" |
| `Brlc.BrlcToken.Transfer` | test/tokens/BRLCTokenUpgradeable.test.ts:50-88 | fails on the gate for the caller and the recipient; otherwise it is the ERC-20 transfer of exactly the amount |
| `Brlc.BrlcToken.Approve` | test/tokens/BRLCTokenUpgradeable.test.ts:91-129 | fails on the gate for the caller and the spender; otherwise the allowance becomes the amount |
| `Brlc.BrlcToken.TransferFrom` | test/tokens/BRLCTokenUpgradeable.test.ts:132-179 | the gate is checked on `from` and `to`, not on the spender; otherwise it is the ERC-20 `transferFrom` |
| `Brlc.BrlcToken.IncreaseAllowance` | test/tokens/BRLCTokenUpgradeable.test.ts:182-225 | same gate as `approve`; the allowance becomes old + added, and the new total is reported |
| `Brlc.BrlcToken.DecreaseAllowance` | test/tokens/BRLCTokenUpgradeable.test.ts:228-272 | same gate as `approve`; the allowance becomes old − subtracted, and the new total is reported |
| `Brlc.BrlcToken.Mint` | test/tokens/BRLCTokenUpgradeable.test.ts:42-48 | the minting helper fails for the zero address first, then while paused (through the hook); otherwise it credits the amount |
| `Brlc.TransferMovesAmount` | test/tokens/BRLCTokenUpgradeable.test.ts:73-82 | a BRLC `transfer` on a running token between distinct accounts that are not blacklisted, by a holder of the amount, succeeds, debits the caller and credits the recipient by exactly the amount, and leaves every other balance |
| `Multisending.SendsPrefix` | test/periphery/MultisendUpgradeable.test.ts:115-119 | a batch that goes through gets through every prefix; the first failing transfer is the batch's failure |
| `Multisending.SendsEffect` | test/periphery/MultisendUpgradeable.test.ts:121-134 | conservation: after a batch every account holds what it held plus what the batch credits it, the sender less the batch total |
| `Multisending.SendsSucceeds` | test/periphery/MultisendUpgradeable.test.ts:115-134 | with real parties and no self-payment, a batch goes through exactly when the sender holds the total, and otherwise fails with InsufficientBalance; on success the sender loses exactly the total |
| `Multisending.CreditedDistinct` | test/periphery/MultisendUpgradeable.test.ts:121-134 | with distinct recipients, `recipients[i]` is credited exactly `amounts[i]` |
| `Multisending.CreditedAbsent` | test/periphery/MultisendUpgradeable.test.ts:121-134 | an account no entry names is credited nothing |
| `Multisending.BatchPaysEachRecipient` | test/periphery/MultisendUpgradeable.test.ts:121-134 | a funded batch of distinct real recipients goes through, the contract loses the total and `recipients[i]` gains `amounts[i]` |
| `Multisending.Multisend.constructor` | test/periphery/MultisendUpgradeable.test.ts:29-32 | a deployed Multisend is initialised and running, with every role unassigned |
| `Multisending.Sends` | test/periphery/MultisendUpgradeable.test.ts:115-134 | an empty batch changes nothing; a batch that goes through had a real sender and only real recipients; a batch that fails does so with the zero-address or the balance error |
| `Multisending.Multisend.Validate` | test/periphery/MultisendUpgradeable.test.ts:88-113 | the pre-checks pass exactly when all hold, and the first that fails decides the error, in order: paused, caller not whitelisted, zero token, empty recipients, length mismatch |
| `Multisending.Multisend.MultisendToken` | test/periphery/MultisendUpgradeable.test.ts:88-142 | fails on validation; otherwise the token's balances become exactly those of the batch fold, or stay as they were if the batch fails; success reports the total |
| `Pix.CashInEffect` | test/periphery/PixCashierUpgradeable.test.ts:98-113 | cash-in fails only for the zero account, and otherwise credits exactly the amount to it and to nobody else |
| `Pix.CashOutEffect` | test/periphery/PixCashierUpgradeable.test.ts:140-161 | cash-out fails exactly when the client holds less than the amount; otherwise it moves the amount to the cashier and adds it to the client's escrow |
| `Pix.ConfirmEffect` | test/periphery/PixCashierUpgradeable.test.ts:191-213 | confirm fails exactly when the escrow is short; otherwise the cashier's balance and the escrow drop by the amount and the client's balance is untouched |
| `Pix.ReverseEffect` | test/periphery/PixCashierUpgradeable.test.ts:243-264 | reverse fails exactly when the escrow is short; otherwise the amount goes back from the cashier to the client and the escrow drops by it |
| `Pix.Apply` | test/periphery/PixCashierUpgradeable.test.ts:98-262 | confirm and reverse fail with their own errors when the escrow is short; a successful operation changes only the client's escrow: cash-in leaves it, cash-out raises it by the amount, confirm and reverse lower it by the amount |
| `Pix.RunDeltas` | test/periphery/PixCashierUpgradeable.test.ts:285-305 | over any run: the client's balance moves by in − out + reverse, and its escrow and the cashier's balance both move by out − reverse − confirm |
| `Pix.EscrowBacked` | test/periphery/PixCashierUpgradeable.test.ts:302-304 | a cashier starting empty holds exactly the client's escrow after any run |
| `Pix.RunStep` | test/periphery/PixCashierUpgradeable.test.ts:292-301 | a run extended by one operation applies that operation to the state the run reached |
| `Pix.Scenario` | test/periphery/PixCashierUpgradeable.test.ts:275-305 | cash-in 100, cash-out 80, reverse 20, confirm 50 leave the client 40 tokens, 10 in escrow, and the cashier 10 |
| `Pix.PixCashier.constructor` | test/periphery/PixCashierUpgradeable.test.ts:31-33 | a deployed cashier is bound to its token, initialised, with no escrow and every role unassigned |
| `Pix.PixCashier.CashIn` | test/periphery/PixCashierUpgradeable.test.ts:86-119 | fails while paused, then for a caller the enabled whitelist rejects; otherwise it is the cash-in of `Apply` |
| `Pix.PixCashier.CashOut` | test/periphery/PixCashierUpgradeable.test.ts:133-169 | fails while paused; otherwise it is the cash-out of `Apply`, and it reports the new escrow |
| `Pix.PixCashier.CashOutConfirm` | test/periphery/PixCashierUpgradeable.test.ts:184-221 | fails while paused; otherwise it is the confirmation of `Apply`, and it reports the remaining escrow |
| `Pix.PixCashier.CashOutReverse` | test/periphery/PixCashierUpgradeable.test.ts:236-272 | fails while paused; otherwise it is the reversal of `Apply`, and it reports the remaining escrow |
| `Pix.PixCashier.CashOutBalanceOf` | test/periphery/PixCashierUpgradeable.test.ts:147-161 | `cashOutBalanceOf` reads the escrow recorded for the account, zero for one that never cashed out |
| `Rewards.KindOf` | test/rewards/SpinMachineUpgradeable.test.ts:380-399 | a spin is idle exactly when the machine is unfunded or nothing is available; it uses the free spin whenever that is available, else a credit |
| `Rewards.CanFreeSpin` | test/rewards/SpinMachineUpgradeable.test.ts:271-275 | a free spin is available exactly when at least `freeSpinDelay` seconds have passed since the last one; with no delay, whenever the last one is not in the future |
| `Rewards.CanSpin` | test/rewards/SpinMachineUpgradeable.test.ts:318-327 | a credit always allows a spin; without credits, a spin is available exactly when the free spin is |
| `Rewards.Consume` | test/rewards/SpinMachineUpgradeable.test.ts:460-467 | an extra spin uses exactly one credit and keeps the free-spin stamp; a free spin stamps the time and keeps the credits; an idle spin changes neither |
| `Rewards.SpinStep` | test/rewards/SpinMachineUpgradeable.test.ts:277-400 | a spin fails exactly when it is eligible, the machine is funded and no prize list is set; it draws exactly when eligible and funded, a prize from the list, paying no more than the prize and the balance; an undrawn spin leaves the wheel |
| `Rewards.Payout` | test/rewards/SpinMachineUpgradeable.test.ts:299-334 | the amount paid is the prize or the whole balance, whichever is smaller |
| `Rewards.PrizeIndex` | test/rewards/SpinMachineUpgradeable.test.ts:715-724 | the random number selects a position of the prize list, and position `rand` itself when `rand` is one |
| `Rewards.SpinUnfunded` | test/rewards/SpinMachineUpgradeable.test.ts:277-296 | on a machine without tokens a spin does not fail and changes nothing |
| `Rewards.SpinIneligible` | test/rewards/SpinMachineUpgradeable.test.ts:504-520 | without a free spin or a credit, a spin does not fail and changes nothing |
| `Rewards.SpinDraws` | test/rewards/SpinMachineUpgradeable.test.ts:336-378 | an eligible funded spin draws the selected prize, pays min(prize, balance), and either stamps the free spin with `now` or uses exactly one credit |
| `Rewards.SpinExhausts` | test/rewards/SpinMachineUpgradeable.test.ts:460-467 | a drawn spin that used an account's only opportunity leaves `canSpin` false |
| `Rewards.ZeroPrizeSpins` | test/rewards/SpinMachineUpgradeable.test.ts:643-688 | with a zero prize, the free spin and then the credit are still used, each paying 0 |
| `Rewards.WindowBound` | test/rewards/SpinMachineUpgradeable.test.ts:380-399 | within one cool-down window at most one free spin is granted, and every other spin costs a credit |
| `Rewards.WindowSpins` | test/rewards/SpinMachineUpgradeable.test.ts:504-529 | within one cool-down window an account gets at most one spin more than the credits it held |
| `Rewards.SpinMachine.constructor` | test/rewards/SpinMachineUpgradeable.test.ts:37-40 | a deployed machine is bound to its token, initialised, unconfigured, and nobody has spun |
| `Rewards.SpinMachine.CanFreeSpinAt` | test/rewards/SpinMachineUpgradeable.test.ts:271-275 | `canFreeSpin(account)` holds exactly when the account's last free spin plus the delay is not after now |
| `Rewards.SpinMachine.CanSpinAt` | test/rewards/SpinMachineUpgradeable.test.ts:318-327 | `canSpin(account)` holds exactly when a spin on a funded machine would draw, that is, when a free spin or a credit is available |
| `Rewards.SpinMachine.SetPrizes` | test/rewards/SpinMachineUpgradeable.test.ts:59-87 | fails for a non-owner, then for an empty list; otherwise `getPrizes()` is the given list, element for element |
| `Rewards.SpinMachine.SetFreeSpinDelay` | test/rewards/SpinMachineUpgradeable.test.ts:89-112 | only the owner may set the cool-down |
| `Rewards.SpinMachine.SetExtraSpinPrice` | test/rewards/SpinMachineUpgradeable.test.ts:114-138 | only the owner may set the price of a credit |
| `Rewards.SpinMachine.SetFaucet` | test/rewards/SpinMachineUpgradeable.test.ts:633-640 | the owner sets the faucet that refunds spinners |
| `Rewards.SpinMachine.GrantExtraSpin` | test/rewards/SpinMachineUpgradeable.test.ts:140-176 | fails for a non-owner, then for the zero account, then for a zero count; otherwise the account's credits grow by exactly the count |
| `Rewards.SpinMachine.BuyExtraSpin` | test/rewards/SpinMachineUpgradeable.test.ts:205-269 | fails while paused, for the zero account, for a zero count, or when the buyer cannot pay; otherwise the buyer pays price × count to the machine and the target (not the buyer) gains count credits |
| `Rewards.SpinMachine.Spin` | test/rewards/SpinMachineUpgradeable.test.ts:539-640 | fails while paused, then for a caller the enabled whitelist rejects; otherwise the caller's wheel and draw are those of `SpinStep`, the amount paid moves from the machine to the caller, nobody else's wheel changes, and the faucet refunds the caller exactly when one is set |

## Left out

- Events that only echo a call's arguments are not modelled. These are the ERC-20 `Transfer`/`Approval`, `PauserChanged`, `Paused(caller)`/`Unpaused(caller)`, `BlacklisterChanged`, the whitelist events, `RescuerChanged`, `PrizesDistributionChanged`, `FreeSpinDelayChanged` and `ExtraSpinPriceChanged` (with the old value), `ExtraSpinGranted`, `ExtraSpinPurchased`, `CashIn` and the `Multisend` event's token. The events whose payload is computed are modelled as return values: the totals of `increaseAllowance`/`decreaseAllowance`, the escrow reported by the cash-out operations, the Multisend total, the blacklist events, `WhitelisterChanged`, and the `Spin` event.
- Integers are unbounded, so uint256 wrap-around is not modelled. Solidity 0.8 would revert on overflow in, for example, `extraSpinPrice * count` or a credit count; the model never reverts there.
- Proxy deployment, `upgrades.deployProxy`, signers and gas belong to the test scaffolding. Deployment plus `initialize` is the constructor. `initialize` and `initialize_unchained` share one initialised flag.
- Ownership transfer is left out, because no test changes an owner. The owner is a constant of each contract.
- The random provider (`setRandomProvider`, the on-chain provider, the provider mock) is not modelled. Its number is the `rand` parameter of `Spin`.
- The faucet's refund is an external call into a contract that is not part of this model. The model assumes the call does not make the spin revert, and records only which account is refunded.
- The token's name, symbol and decimals are not modelled.
- SpinMachineV2 and the Substrate BRLC token are not modelled. Their tests only check initialize-once, which `Initializable` covers.
- The whitelistable mocks' `setStubWhitelister` test backdoor is not modelled. The admin-gated `updateWhitelister` is the only way to make a whitelister.
- Conservation in the cashier is stated per client (one client's runs against one cashier). It does not state that the cashier's balance backs the sum of all clients' escrows, nor that it survives a rescue of the cashier's tokens.
- The cool-down window bound counts spins on a funded machine. Spins on an unfunded machine use nothing (`Rewards.SpinUnfunded`).
