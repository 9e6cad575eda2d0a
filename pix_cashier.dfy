/**
 * PixCashier: the bridge between BRLC and PIX payments. An operator mints
 * tokens to a client on cash-in; on cash-out the client's tokens move into
 * the cashier and are held in escrow (`cashOutBalanceOf`) until the payment
 * is either confirmed (the escrowed tokens are burnt) or reversed (they go
 * back to the client).
 *
 * `Apply` is the effect of one operation on the token tables and the escrow
 * table once the pause and whitelist gates have passed; the class updates
 * the same tables in place and is proved against it.
 */
module Pix {
  import opened Common
  import opened Erc20
  import opened Pausable
  import opened Whitelisting
  import opened Rescue
  import opened Initialization

  type Escrow = map<Account, nat>

  /** The token tables together with the cashier's escrow table. */
  datatype Books = Books(balances: Balances, allowances: Allowances, escrow: Escrow)

  /** One cashier operation on behalf of one client, with its amount. */
  datatype CashOp = In(amount: nat) | Out(amount: nat) | Confirm(amount: nat) | Reverse(amount: nat)

  /**
   * The effect of `op` for `client` on a cashier at address `self`: cash-in
   * mints to the client; cash-out pulls the client's tokens into the cashier
   * with `transferFrom` (the cashier is the spender) and escrows them;
   * confirm burns escrowed tokens held by the cashier; reverse sends them
   * back to the client.
   */
  function Apply(b: Books, self: Principal, client: Account, op: CashOp): (r: Result<Books>)
    ensures (op.Confirm? || op.Reverse?) && Get(b.escrow, client) < op.amount ==>
      r == Err(if op.Confirm? then CashOutConfirmExceedsBalance else CashOutReverseExceedsBalance)
    ensures r.Ok? ==> forall a :: a != client ==> Get(r.value.escrow, a) == Get(b.escrow, a)
    ensures r.Ok? && op.In? ==> r.value.escrow == b.escrow
    ensures r.Ok? && op.Out? ==> Get(r.value.escrow, client) == Get(b.escrow, client) + op.amount
    ensures r.Ok? && (op.Confirm? || op.Reverse?) ==> Get(r.value.escrow, client) + op.amount == Get(b.escrow, client)
  {
    match op
    case In(amount) =>
      if client == ZERO then Err(ZeroAddress)
      else Ok(b.(balances := Minted(b.balances, client, amount)))
    case Out(amount) =>
      (match SendFrom(Tables(b.balances, b.allowances), self, client, self, amount)
       case Err(e) => Err(e)
       case Ok(t) => Ok(Books(t.balances, t.allowances, b.escrow[client := Get(b.escrow, client) + amount])))
    case Confirm(amount) =>
      if Get(b.escrow, client) < amount then Err(CashOutConfirmExceedsBalance)
      else if Get(b.balances, self) < amount then Err(InsufficientBalance)
      else Ok(b.(balances := Burned(b.balances, self, amount), escrow := b.escrow[client := Get(b.escrow, client) - amount]))
    case Reverse(amount) =>
      if Get(b.escrow, client) < amount then Err(CashOutReverseExceedsBalance)
      else
        match Send(b.balances, self, client, amount)
        case Err(e) => Err(e)
        case Ok(m) => Ok(b.(balances := m, escrow := b.escrow[client := Get(b.escrow, client) - amount]))
  }

  /** A sequence of operations for one client, in order; the first failure ends it. */
  function Run(b: Books, self: Principal, client: Account, ops: seq<CashOp>): Result<Books>
    decreases |ops|
  {
    if ops == [] then Ok(b)
    else
      match Run(b, self, client, ops[..|ops| - 1])
      case Err(e) => Err(e)
      case Ok(partial) => Apply(partial, self, client, ops[|ops| - 1])
  }

  /** The amounts of a sequence of operations, added up by kind. */
  datatype Tally = Tally(cashedIn: nat, cashedOut: nat, confirmed: nat, reversed: nat)

  function Count(ops: seq<CashOp>): Tally
  {
    if ops == [] then Tally(0, 0, 0, 0)
    else
      var t := Count(ops[..|ops| - 1]);
      match ops[|ops| - 1]
      case In(a) => t.(cashedIn := t.cashedIn + a)
      case Out(a) => t.(cashedOut := t.cashedOut + a)
      case Confirm(a) => t.(confirmed := t.confirmed + a)
      case Reverse(a) => t.(reversed := t.reversed + a)
  }

  /** Cash-in fails only for the zero account and otherwise credits exactly `amount` to it, and to nobody else. */
  lemma CashInEffect(b: Books, self: Principal, client: Account, amount: nat)
    ensures Apply(b, self, client, In(amount)).Ok? <==> client != ZERO
    ensures client == ZERO ==> Apply(b, self, client, In(amount)) == Err(ZeroAddress)
    ensures client != ZERO ==>
      var b' := Apply(b, self, client, In(amount)).value;
      && Get(b'.balances, client) == Get(b.balances, client) + amount
      && (forall a :: a != client ==> Get(b'.balances, a) == Get(b.balances, a))
      && b'.escrow == b.escrow && b'.allowances == b.allowances
  {
  }

  /**
   * Cash-out by a client that has approved the cashier for at least
   * `amount`: fails exactly when the client holds less than `amount`;
   * otherwise `amount` moves from the client to the cashier and the
   * client's escrow grows by `amount`.
   */
  lemma CashOutEffect(b: Books, self: Principal, client: Principal, amount: nat)
    requires client != self && amount <= Get(b.allowances, (client, self))
    ensures Apply(b, self, client, Out(amount)).Ok? <==> amount <= Get(b.balances, client)
    ensures Apply(b, self, client, Out(amount)).Err? ==> Apply(b, self, client, Out(amount)).error == InsufficientBalance
    ensures Apply(b, self, client, Out(amount)).Ok? ==>
      var b' := Apply(b, self, client, Out(amount)).value;
      && Get(b'.balances, client) == Get(b.balances, client) - amount
      && Get(b'.balances, self) == Get(b.balances, self) + amount
      && Get(b'.escrow, client) == Get(b.escrow, client) + amount
      && (forall a :: a != client ==> Get(b'.escrow, a) == Get(b.escrow, a))
  {
  }

  /**
   * Confirmation: fails when the client's escrow is below `amount`;
   * otherwise the cashier's balance and the escrow both drop by `amount`
   * and the client's balance is untouched.
   */
  lemma ConfirmEffect(b: Books, self: Principal, client: Principal, amount: nat)
    requires client != self && Get(b.escrow, client) <= Get(b.balances, self)
    ensures Apply(b, self, client, Confirm(amount)).Ok? <==> amount <= Get(b.escrow, client)
    ensures Apply(b, self, client, Confirm(amount)).Err? ==> Apply(b, self, client, Confirm(amount)).error == CashOutConfirmExceedsBalance
    ensures Apply(b, self, client, Confirm(amount)).Ok? ==>
      var b' := Apply(b, self, client, Confirm(amount)).value;
      && Get(b'.balances, self) == Get(b.balances, self) - amount
      && Get(b'.escrow, client) == Get(b.escrow, client) - amount
      && Get(b'.balances, client) == Get(b.balances, client)
  {
  }

  /**
   * Reversal: fails when the client's escrow is below `amount`; otherwise
   * `amount` moves from the cashier back to the client and the escrow drops
   * by `amount`.
   */
  lemma ReverseEffect(b: Books, self: Principal, client: Principal, amount: nat)
    requires client != self && Get(b.escrow, client) <= Get(b.balances, self)
    ensures Apply(b, self, client, Reverse(amount)).Ok? <==> amount <= Get(b.escrow, client)
    ensures Apply(b, self, client, Reverse(amount)).Err? ==> Apply(b, self, client, Reverse(amount)).error == CashOutReverseExceedsBalance
    ensures Apply(b, self, client, Reverse(amount)).Ok? ==>
      var b' := Apply(b, self, client, Reverse(amount)).value;
      && Get(b'.balances, self) == Get(b.balances, self) - amount
      && Get(b'.balances, client) == Get(b.balances, client) + amount
      && Get(b'.escrow, client) == Get(b.escrow, client) - amount
  {
  }

  /**
   * Conservation over any run of operations that goes through: the client
   * holds what it held plus what was cashed in and reversed, minus what was
   * cashed out; its escrow and the cashier's balance both grow by what was
   * cashed out and shrink by what was confirmed or reversed.
   */
  lemma {:induction false} RunDeltas(b: Books, self: Principal, client: Account, ops: seq<CashOp>)
    requires client != self
    requires Run(b, self, client, ops).Ok?
    ensures var b', t := Run(b, self, client, ops).value, Count(ops);
      && Get(b'.balances, client) + t.cashedOut == Get(b.balances, client) + t.cashedIn + t.reversed
      && Get(b'.escrow, client) + t.confirmed + t.reversed == Get(b.escrow, client) + t.cashedOut
      && Get(b'.balances, self) + t.confirmed + t.reversed == Get(b.balances, self) + t.cashedOut
    decreases |ops|
  {
    if ops != [] {
      RunDeltas(b, self, client, ops[..|ops| - 1]);
    }
  }

  /** A cashier that starts with no tokens and no escrow holds exactly the client's escrow after any run. */
  lemma EscrowBacked(b: Books, self: Principal, client: Account, ops: seq<CashOp>)
    requires client != self && Get(b.balances, self) == 0 && Get(b.escrow, client) == 0
    requires Run(b, self, client, ops).Ok?
    ensures Get(Run(b, self, client, ops).value.balances, self) == Get(Run(b, self, client, ops).value.escrow, client)
  {
    RunDeltas(b, self, client, ops);
  }

  /**
   * The complex scenario: a client with no tokens that approved the cashier
   * for the maximal amount cashes in 100, cashes out 80, has 20 reversed and
   * 50 confirmed; it ends with 40 tokens, 10 in escrow, and the cashier
   * holds 10.
   */
  lemma Scenario(self: Principal, client: Principal)
    requires client != self
    ensures var b := Books(map[], map[(client, self) := MAX_UINT256], map[]);
      var ops := [In(100), Out(80), Reverse(20), Confirm(50)];
      && Run(b, self, client, ops).Ok?
      && Get(Run(b, self, client, ops).value.balances, client) == 40
      && Get(Run(b, self, client, ops).value.escrow, client) == 10
      && Get(Run(b, self, client, ops).value.balances, self) == 10
  {
    var b := Books(map[], map[(client, self) := MAX_UINT256], map[]);
    CashInEffect(b, self, client, 100);
    var b1 := Apply(b, self, client, In(100)).value;
    CashOutEffect(b1, self, client, 80);
    var b2 := Apply(b1, self, client, Out(80)).value;
    ReverseEffect(b2, self, client, 20);
    var b3 := Apply(b2, self, client, Reverse(20)).value;
    ConfirmEffect(b3, self, client, 50);
    var b4 := Apply(b3, self, client, Confirm(50)).value;
    RunStep(b, self, client, [], In(100));
    assert [] + [In(100)] == [In(100)];
    assert Run(b, self, client, [In(100)]) == Ok(b1);
    RunStep(b, self, client, [In(100)], Out(80));
    assert [In(100)] + [Out(80)] == [In(100), Out(80)];
    assert Run(b, self, client, [In(100), Out(80)]) == Ok(b2);
    RunStep(b, self, client, [In(100), Out(80)], Reverse(20));
    assert [In(100), Out(80)] + [Reverse(20)] == [In(100), Out(80), Reverse(20)];
    assert Run(b, self, client, [In(100), Out(80), Reverse(20)]) == Ok(b3);
    RunStep(b, self, client, [In(100), Out(80), Reverse(20)], Confirm(50));
    assert [In(100), Out(80), Reverse(20)] + [Confirm(50)] == [In(100), Out(80), Reverse(20), Confirm(50)];
    assert Run(b, self, client, [In(100), Out(80), Reverse(20), Confirm(50)]) == Ok(b4);
  }

  /** Running one more operation applies it to the state the run reached. */
  lemma RunStep(b: Books, self: Principal, client: Account, ops: seq<CashOp>, op: CashOp)
    requires Run(b, self, client, ops).Ok?
    ensures Run(b, self, client, ops + [op]) == Apply(Run(b, self, client, ops).value, self, client, op)
  {
    assert (ops + [op])[..|ops|] == ops;
  }

  class PixCashier {
    const owner: Principal
    const address: Principal
    const token: Token
    const pausable: PausableEx
    const whitelist: Whitelistable
    const rescuable: Rescuable
    const init: Initializable
    /** `cashOutBalanceOf`: the tokens of each client held in escrow. */
    var cashOutBalances: Escrow

    /** Deployment through the proxy, bound to `token`: nothing escrowed, every role unassigned. */
    constructor (owner: Principal, address: Principal, token: Token)
      ensures this.owner == owner && this.address == address && this.token == token
      ensures cashOutBalances == map[]
      ensures fresh(pausable) && fresh(whitelist) && fresh(rescuable) && fresh(init)
      ensures pausable.owner == owner && pausable.pauser == ZERO && !pausable.paused
      ensures whitelist.owner == owner && whitelist.whitelistAdmin == ZERO && !whitelist.enabled
      ensures whitelist.whitelisters == {} && whitelist.whitelisted == {}
      ensures rescuable.owner == owner && rescuable.address == address && rescuable.rescuer == ZERO
      ensures init.initialized
    {
      this.owner := owner;
      this.address := address;
      this.token := token;
      cashOutBalances := map[];
      pausable := new PausableEx(owner);
      whitelist := new Whitelistable(owner);
      rescuable := new Rescuable(owner, address);
      init := new Initializable();
    }

    /** `cashOutBalanceOf(account)`: the escrow held for `account`, zero for one that never cashed out. */
    function CashOutBalanceOf(account: Account): (r: nat)
      reads this
      ensures account !in cashOutBalances ==> r == 0
      ensures account in cashOutBalances ==> r == cashOutBalances[account]
    {
      Get(cashOutBalances, account)
    }

    /** The token tables and the escrow table as they stand. */
    function State(): Books
      reads this, token
    {
      Books(token.balances, token.allowances, cashOutBalances)
    }

    /** `cashIn(account, amount)` by `caller`: refused while paused, then for a caller the enabled whitelist does not admit. */
    method CashIn(caller: Principal, account: Account, amount: nat) returns (r: Outcome)
      modifies token
      ensures pausable.paused ==> r == Fail(ContractPaused)
      ensures !pausable.paused && whitelist.OnlyWhitelisted(caller).Fail? ==> r == Fail(AccountNotWhitelisted)
      ensures !pausable.paused && whitelist.OnlyWhitelisted(caller).Pass? ==>
        Apply(old(State()), address, account, In(amount)) == (if r.Pass? then Ok(State()) else Err(r.error))
      ensures r.Fail? ==> State() == old(State())
    {
      r := pausable.WhenNotPaused();
      if r.Fail? {
        return;
      }
      r := whitelist.OnlyWhitelisted(caller);
      if r.Fail? {
        return;
      }
      r := token.Mint(account, amount);
    }

    /** `cashOut(amount)` by `caller`: refused while paused; the result is the caller's new escrow. */
    method CashOut(caller: Principal, amount: nat) returns (r: Result<nat>)
      modifies this, token
      ensures pausable.paused ==> r == Err(ContractPaused)
      ensures !pausable.paused ==>
        Apply(old(State()), address, caller, Out(amount)) == (if r.Ok? then Ok(State()) else Err(r.error))
      ensures r.Ok? ==> r.value == CashOutBalanceOf(caller)
      ensures r.Err? ==> State() == old(State())
    {
      var gate := pausable.WhenNotPaused();
      if gate.Fail? {
        return Err(gate.error);
      }
      var moved := token.TransferFrom(address, caller, address, amount);
      if moved.Fail? {
        return Err(moved.error);
      }
      var escrowed := Get(cashOutBalances, caller) + amount;
      cashOutBalances := cashOutBalances[caller := escrowed];
      r := Ok(escrowed);
    }

    /** `cashOutConfirm(amount)` by `caller`: refused while paused; the result is the caller's remaining escrow. */
    method CashOutConfirm(caller: Principal, amount: nat) returns (r: Result<nat>)
      modifies this, token
      ensures pausable.paused ==> r == Err(ContractPaused)
      ensures !pausable.paused ==>
        Apply(old(State()), address, caller, Confirm(amount)) == (if r.Ok? then Ok(State()) else Err(r.error))
      ensures r.Ok? ==> r.value == CashOutBalanceOf(caller)
      ensures r.Err? ==> State() == old(State())
    {
      var gate := pausable.WhenNotPaused();
      if gate.Fail? {
        return Err(gate.error);
      }
      var escrowed := Get(cashOutBalances, caller);
      if escrowed < amount {
        return Err(CashOutConfirmExceedsBalance);
      }
      var burnt := token.Burn(address, amount);
      if burnt.Fail? {
        return Err(burnt.error);
      }
      cashOutBalances := cashOutBalances[caller := escrowed - amount];
      r := Ok(escrowed - amount);
    }

    /** `cashOutReverse(amount)` by `caller`: refused while paused; the result is the caller's remaining escrow. */
    method CashOutReverse(caller: Principal, amount: nat) returns (r: Result<nat>)
      modifies this, token
      ensures pausable.paused ==> r == Err(ContractPaused)
      ensures !pausable.paused ==>
        Apply(old(State()), address, caller, Reverse(amount)) == (if r.Ok? then Ok(State()) else Err(r.error))
      ensures r.Ok? ==> r.value == CashOutBalanceOf(caller)
      ensures r.Err? ==> State() == old(State())
    {
      var gate := pausable.WhenNotPaused();
      if gate.Fail? {
        return Err(gate.error);
      }
      var escrowed := Get(cashOutBalances, caller);
      if escrowed < amount {
        return Err(CashOutReverseExceedsBalance);
      }
      var sent := token.Transfer(address, caller, amount);
      if sent.Fail? {
        return Err(sent.error);
      }
      cashOutBalances := cashOutBalances[caller := escrowed - amount];
      r := Ok(escrowed - amount);
    }
  }
}
