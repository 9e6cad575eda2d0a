/**
 * SpinMachine: a reward wheel. Every account may spin for free once per
 * `freeSpinDelay` seconds and, besides, as many times as it holds extra-spin
 * credits, which the owner grants or anyone buys for another account at
 * `extraSpinPrice` each. A spin draws a prize from the configured list with
 * a random number and pays it out of the machine's own token balance, or as
 * much of it as the machine still holds; the free spin is used before any
 * credit. A machine with no tokens lets spins through without effect.
 *
 * The block timestamp (`now`) and the random number are parameters; the
 * per-account state is a `Wheel`, and the pure functions below say what a
 * spin does to it. The class keeps the same state in maps and is proved
 * against those functions.
 */
module Rewards {
  import opened Common
  import opened Erc20
  import opened Pausable
  import opened Whitelisting
  import opened Initialization

  /** One account's spin state: when it last used its free spin, and its extra-spin credits. */
  datatype Wheel = Wheel(lastFreeSpin: nat, extraSpins: nat)

  /** What a spin uses: nothing, the free spin, or one credit. */
  datatype SpinKind = Idle | Free | Extra

  /** A drawn spin as the `Spin` event reports it: the prize drawn, the amount paid, and whether a credit was used. */
  datatype Draw = Draw(prize: nat, paid: nat, extra: bool)

  /** `canFreeSpin`: the cool-down since the last free spin has elapsed. */
  predicate CanFreeSpin(w: Wheel, delay: nat, now: nat): (b: bool)
    ensures b <==> now >= w.lastFreeSpin && now - w.lastFreeSpin >= delay
    ensures delay == 0 ==> (b <==> w.lastFreeSpin <= now)
  {
    w.lastFreeSpin + delay <= now
  }

  /** `canSpin`: a free spin or a credit is available. */
  predicate CanSpin(w: Wheel, delay: nat, now: nat): (b: bool)
    ensures w.extraSpins > 0 ==> b
    ensures w.extraSpins == 0 ==> (b <==> CanFreeSpin(w, delay, now))
  {
    CanFreeSpin(w, delay, now) || w.extraSpins > 0
  }

  /** What a spin at `now` uses, on a machine that holds tokens (`funded`) or not. */
  function KindOf(w: Wheel, delay: nat, now: nat, funded: bool): (k: SpinKind)
    ensures k == Idle <==> !funded || !CanSpin(w, delay, now)
    ensures k == Free ==> CanFreeSpin(w, delay, now)
    ensures k == Extra ==> !CanFreeSpin(w, delay, now) && w.extraSpins > 0
  {
    if !funded then Idle
    else if CanFreeSpin(w, delay, now) then Free
    else if w.extraSpins > 0 then Extra
    else Idle
  }

  /** The wheel after a spin of kind `k` at `now`. */
  function Consume(w: Wheel, k: SpinKind, now: nat): (r: Wheel)
    requires k == Extra ==> w.extraSpins > 0
    ensures r.extraSpins + (if k == Extra then 1 else 0) == w.extraSpins
    ensures r.lastFreeSpin == (if k == Free then now else w.lastFreeSpin)
  {
    match k
    case Idle => w
    case Free => w.(lastFreeSpin := now)
    case Extra => w.(extraSpins := w.extraSpins - 1)
  }

  /** What a drawn prize pays out of a machine holding `balance`. */
  function Payout(prize: nat, balance: nat): (paid: nat)
    ensures paid <= prize && paid <= balance
    ensures paid == prize || paid == balance
  {
    if prize <= balance then prize else balance
  }

  /** The position in the prize list a random number selects. */
  function PrizeIndex(rand: nat, count: nat): (i: nat)
    requires count > 0
    ensures i < count
    ensures rand < count ==> i == rand
  {
    rand % count
  }

  /**
   * A spin by one account at `now` with random number `rand`, on a machine
   * holding `balance` tokens: the account's new wheel and the draw, if there
   * was one. An eligible spin on a funded machine with no prize list fails.
   */
  function SpinStep(w: Wheel, delay: nat, now: nat, prizes: seq<nat>, rand: nat, balance: nat): (r: Result<(Wheel, Option<Draw>)>)
    ensures r.Err? <==> balance > 0 && CanSpin(w, delay, now) && prizes == []
    ensures r.Err? ==> r.error == PrizesNotSet
    ensures r.Ok? ==> (r.value.1.Some? <==> balance > 0 && CanSpin(w, delay, now))
    ensures r.Ok? && r.value.1.None? ==> r.value.0 == w
    ensures r.Ok? && r.value.1.Some? ==>
      r.value.1.value.prize in prizes && r.value.1.value.paid <= r.value.1.value.prize && r.value.1.value.paid <= balance
  {
    var k := KindOf(w, delay, now, balance > 0);
    if k == Idle then Ok((w, None))
    else if prizes == [] then Err(PrizesNotSet)
    else
      var prize := prizes[PrizeIndex(rand, |prizes|)];
      Ok((Consume(w, k, now), Some(Draw(prize, Payout(prize, balance), k == Extra))))
  }

  /** A machine without tokens: the spin neither fails nor changes anything, whatever the account holds. */
  lemma SpinUnfunded(w: Wheel, delay: nat, now: nat, prizes: seq<nat>, rand: nat)
    ensures SpinStep(w, delay, now, prizes, rand, 0) == Ok((w, None))
  {
  }

  /** An account with neither a free spin nor a credit: the spin neither fails nor changes anything. */
  lemma SpinIneligible(w: Wheel, delay: nat, now: nat, prizes: seq<nat>, rand: nat, balance: nat)
    requires !CanSpin(w, delay, now)
    ensures SpinStep(w, delay, now, prizes, rand, balance) == Ok((w, None))
  {
  }

  /**
   * An eligible spin on a funded machine with a prize list: it draws the
   * prize `rand` selects (`prizes[rand]` when `rand` is a position of the
   * list), pays the smaller of that prize and the balance, and uses the free
   * spin when the cool-down has elapsed (stamping it with `now`), else
   * exactly one credit.
   */
  lemma SpinDraws(w: Wheel, delay: nat, now: nat, prizes: seq<nat>, rand: nat, balance: nat)
    requires CanSpin(w, delay, now) && balance > 0 && prizes != []
    ensures SpinStep(w, delay, now, prizes, rand, balance).Ok?
    ensures var (w', draw) := SpinStep(w, delay, now, prizes, rand, balance).value;
      && draw.Some?
      && draw.value.prize in prizes
      && (rand < |prizes| ==> draw.value.prize == prizes[rand])
      && draw.value.paid == (if draw.value.prize <= balance then draw.value.prize else balance)
      && draw.value.extra == !CanFreeSpin(w, delay, now)
      && (CanFreeSpin(w, delay, now) ==> w' == Wheel(now, w.extraSpins))
      && (!CanFreeSpin(w, delay, now) ==> w' == Wheel(w.lastFreeSpin, w.extraSpins - 1))
  {
  }

  /**
   * The last opportunity used up: after a drawn spin by an account that had
   * no other, `canSpin` is false at the same moment (the cool-down being
   * positive).
   */
  lemma SpinExhausts(w: Wheel, delay: nat, now: nat, prizes: seq<nat>, rand: nat, balance: nat)
    requires delay > 0
    requires SpinStep(w, delay, now, prizes, rand, balance).Ok?
    requires SpinStep(w, delay, now, prizes, rand, balance).value.1.Some?
    requires (if CanFreeSpin(w, delay, now) then w.extraSpins == 0 else w.extraSpins == 1)
    ensures !CanSpin(SpinStep(w, delay, now, prizes, rand, balance).value.0, delay, now)
  {
  }

  /**
   * With a prize list of one zero prize, an account holding its free spin
   * and one credit spins twice at the same moment: the first spin uses the
   * free spin, the second the credit, both pay nothing, and no spin is left.
   */
  lemma ZeroPrizeSpins(w: Wheel, delay: nat, now: nat, rand1: nat, rand2: nat, balance: nat)
    requires delay > 0 && balance > 0
    requires CanFreeSpin(w, delay, now) && w.extraSpins == 1
    ensures SpinStep(w, delay, now, [0], rand1, balance) == Ok((Wheel(now, 1), Some(Draw(0, 0, false))))
    ensures SpinStep(Wheel(now, 1), delay, now, [0], rand2, balance) == Ok((Wheel(now, 0), Some(Draw(0, 0, true))))
    ensures !CanSpin(Wheel(now, 0), delay, now)
  {
    SpinDraws(w, delay, now, [0], rand1, balance);
    SpinDraws(Wheel(now, 1), delay, now, [0], rand2, balance);
  }

  /** The spin state after a series of spins at the given times on a funded machine, with how many free spins and credits they used. */
  function Replay(w: Wheel, delay: nat, times: seq<nat>): (Wheel, nat, nat)
  {
    if times == [] then (w, 0, 0)
    else
      var (w', free, extra) := Replay(w, delay, times[..|times| - 1]);
      var now := times[|times| - 1];
      var k := KindOf(w', delay, now, true);
      (Consume(w', k, now), free + (if k == Free then 1 else 0), extra + (if k == Extra then 1 else 0))
  }

  /**
   * Within one cool-down window starting at `start`, an account gets at most
   * one free spin, and every other spin it gets costs a credit: the spins it
   * gets are at most one plus the credits it held.
   */
  lemma {:induction false} WindowBound(w: Wheel, delay: nat, times: seq<nat>, start: nat)
    requires delay > 0
    requires forall i :: 0 <= i < |times| ==> start <= times[i] < start + delay
    ensures var (w', free, extra) := Replay(w, delay, times);
      && free <= 1
      && extra + w'.extraSpins == w.extraSpins
      && (free == 0 ==> w'.lastFreeSpin == w.lastFreeSpin)
      && (free == 1 ==> start <= w'.lastFreeSpin)
    decreases |times|
  {
    if times != [] {
      var n := |times| - 1;
      assert forall i :: 0 <= i < n ==> times[..n][i] == times[i];
      WindowBound(w, delay, times[..n], start);
    }
  }

  /** The count form of the window bound. */
  lemma WindowSpins(w: Wheel, delay: nat, times: seq<nat>, start: nat)
    requires delay > 0
    requires forall i :: 0 <= i < |times| ==> start <= times[i] < start + delay
    ensures Replay(w, delay, times).1 + Replay(w, delay, times).2 <= 1 + w.extraSpins
  {
    WindowBound(w, delay, times, start);
  }

  /** The result of a spin that did not revert: the draw (none on an idle spin) and the account the faucet refunds. */
  datatype SpinReport = SpinReport(draw: Option<Draw>, refundTo: Option<Account>)

  class SpinMachine {
    const owner: Principal
    const address: Principal
    const token: Token
    const pausable: PausableEx
    const whitelist: Whitelistable
    const init: Initializable
    var prizes: seq<nat>
    var freeSpinDelay: nat
    var extraSpinPrice: nat
    var faucet: Account
    var lastFreeSpin: map<Account, nat>
    var extraSpins: map<Account, nat>

    /** Deployment through the proxy, bound to `token`: nothing configured, nobody has spun. */
    constructor (owner: Principal, address: Principal, token: Token)
      ensures this.owner == owner && this.address == address && this.token == token
      ensures prizes == [] && freeSpinDelay == 0 && extraSpinPrice == 0 && faucet == ZERO
      ensures lastFreeSpin == map[] && extraSpins == map[]
      ensures fresh(pausable) && fresh(whitelist) && fresh(init)
      ensures pausable.owner == owner && pausable.pauser == ZERO && !pausable.paused
      ensures whitelist.owner == owner && whitelist.whitelistAdmin == ZERO && !whitelist.enabled
      ensures whitelist.whitelisters == {} && whitelist.whitelisted == {}
      ensures init.initialized
    {
      this.owner := owner;
      this.address := address;
      this.token := token;
      prizes := [];
      freeSpinDelay := 0;
      extraSpinPrice := 0;
      faucet := ZERO;
      lastFreeSpin := map[];
      extraSpins := map[];
      pausable := new PausableEx(owner);
      whitelist := new Whitelistable(owner);
      init := new Initializable();
    }

    /** The spin state of `account`. */
    function WheelOf(account: Account): Wheel
      reads this
    {
      Wheel(Get(lastFreeSpin, account), Get(extraSpins, account))
    }

    /** `canFreeSpin(account)` at time `now`. */
    function CanFreeSpinAt(account: Account, now: nat): (b: bool)
      reads this
      ensures b <==> Get(lastFreeSpin, account) + freeSpinDelay <= now
    {
      CanFreeSpin(WheelOf(account), freeSpinDelay, now)
    }

    /** `canSpin(account)` at time `now`. */
    function CanSpinAt(account: Account, now: nat): (b: bool)
      reads this
      ensures b <==> KindOf(WheelOf(account), freeSpinDelay, now, true) != Idle
      ensures b <==> CanFreeSpinAt(account, now) || Get(extraSpins, account) > 0
    {
      CanSpin(WheelOf(account), freeSpinDelay, now)
    }

    /** `setPrizes`: owner only, and the list must not be empty; afterwards `getPrizes()` is the given list. */
    method SetPrizes(caller: Principal, newPrizes: seq<nat>) returns (r: Outcome)
      modifies this
      ensures r == (if caller != owner then Fail(NotOwner) else if newPrizes == [] then Fail(EmptyPrizes) else Pass)
      ensures prizes == (if r.Pass? then newPrizes else old(prizes))
      ensures freeSpinDelay == old(freeSpinDelay) && extraSpinPrice == old(extraSpinPrice) && faucet == old(faucet)
      ensures lastFreeSpin == old(lastFreeSpin) && extraSpins == old(extraSpins)
    {
      if caller != owner {
        return Fail(NotOwner);
      }
      if newPrizes == [] {
        return Fail(EmptyPrizes);
      }
      prizes := newPrizes;
      r := Pass;
    }

    /** `setFreeSpinDelay`: owner only. */
    method SetFreeSpinDelay(caller: Principal, delay: nat) returns (r: Outcome)
      modifies this
      ensures r == (if caller == owner then Pass else Fail(NotOwner))
      ensures freeSpinDelay == (if r.Pass? then delay else old(freeSpinDelay))
      ensures prizes == old(prizes) && extraSpinPrice == old(extraSpinPrice) && faucet == old(faucet)
      ensures lastFreeSpin == old(lastFreeSpin) && extraSpins == old(extraSpins)
    {
      if caller != owner {
        return Fail(NotOwner);
      }
      freeSpinDelay := delay;
      r := Pass;
    }

    /** `setExtraSpinPrice`: owner only. */
    method SetExtraSpinPrice(caller: Principal, price: nat) returns (r: Outcome)
      modifies this
      ensures r == (if caller == owner then Pass else Fail(NotOwner))
      ensures extraSpinPrice == (if r.Pass? then price else old(extraSpinPrice))
      ensures prizes == old(prizes) && freeSpinDelay == old(freeSpinDelay) && faucet == old(faucet)
      ensures lastFreeSpin == old(lastFreeSpin) && extraSpins == old(extraSpins)
    {
      if caller != owner {
        return Fail(NotOwner);
      }
      extraSpinPrice := price;
      r := Pass;
    }

    /** `setFaucet`: owner only. */
    method SetFaucet(caller: Principal, account: Account) returns (r: Outcome)
      modifies this
      ensures r == (if caller == owner then Pass else Fail(NotOwner))
      ensures faucet == (if r.Pass? then account else old(faucet))
      ensures prizes == old(prizes) && freeSpinDelay == old(freeSpinDelay) && extraSpinPrice == old(extraSpinPrice)
      ensures lastFreeSpin == old(lastFreeSpin) && extraSpins == old(extraSpins)
    {
      if caller != owner {
        return Fail(NotOwner);
      }
      faucet := account;
      r := Pass;
    }

    /**
     * `grantExtraSpin(spinOwner, count)`: owner only; refused for the zero
     * account and for a zero count; otherwise the credits of `spinOwner`
     * grow by exactly `count`.
     */
    method GrantExtraSpin(caller: Principal, spinOwner: Account, count: nat) returns (r: Outcome)
      modifies this
      ensures r == (if caller != owner then Fail(NotOwner)
                    else if spinOwner == ZERO then Fail(ZeroAddress)
                    else if count == 0 then Fail(CountNotPositive)
                    else Pass)
      ensures extraSpins == (if r.Pass? then old(extraSpins)[spinOwner := Get(old(extraSpins), spinOwner) + count] else old(extraSpins))
      ensures prizes == old(prizes) && freeSpinDelay == old(freeSpinDelay) && extraSpinPrice == old(extraSpinPrice)
      ensures faucet == old(faucet) && lastFreeSpin == old(lastFreeSpin)
    {
      if caller != owner {
        return Fail(NotOwner);
      }
      if spinOwner == ZERO {
        return Fail(ZeroAddress);
      }
      if count == 0 {
        return Fail(CountNotPositive);
      }
      extraSpins := extraSpins[spinOwner := Get(extraSpins, spinOwner) + count];
      r := Pass;
    }

    /**
     * `buyExtraSpin(spinOwner, count)` by `caller`: refused while paused,
     * for the zero account and for a zero count; otherwise the caller pays
     * `extraSpinPrice * count` to the machine (through `transferFrom`, the
     * machine being the spender) and `spinOwner`, not the caller, receives
     * the `count` credits.
     */
    method BuyExtraSpin(caller: Principal, spinOwner: Account, count: nat) returns (r: Outcome)
      modifies this, token
      ensures pausable.paused ==> r == Fail(ContractPaused)
      ensures !pausable.paused && (spinOwner == ZERO || count == 0) ==>
        r == Fail(if spinOwner == ZERO then ZeroAddress else CountNotPositive)
      ensures !pausable.paused && spinOwner != ZERO && count > 0 ==>
        SendFrom(old(token.State()), address, caller, address, extraSpinPrice * count)
          == (if r.Pass? then Ok(token.State()) else Err(r.error))
      ensures extraSpins == (if r.Pass? then old(extraSpins)[spinOwner := Get(old(extraSpins), spinOwner) + count] else old(extraSpins))
      ensures r.Fail? ==> token.State() == old(token.State())
      ensures prizes == old(prizes) && freeSpinDelay == old(freeSpinDelay) && extraSpinPrice == old(extraSpinPrice)
      ensures faucet == old(faucet) && lastFreeSpin == old(lastFreeSpin)
    {
      r := pausable.WhenNotPaused();
      if r.Fail? {
        return;
      }
      if spinOwner == ZERO {
        return Fail(ZeroAddress);
      }
      if count == 0 {
        return Fail(CountNotPositive);
      }
      r := token.TransferFrom(address, caller, address, extraSpinPrice * count);
      if r.Fail? {
        return;
      }
      extraSpins := extraSpins[spinOwner := Get(extraSpins, spinOwner) + count];
    }

    /**
     * `spin()` by `caller` at time `now`, with `rand` from the random
     * provider: refused while paused, then for a caller the enabled whitelist
     * does not admit; otherwise the caller's wheel and the draw are those of
     * `SpinStep`, the amount paid moves from the machine to the caller, no
     * other account's wheel changes, and the faucet (when one is set) is
     * asked to refund the caller.
     */
    method Spin(caller: Principal, now: nat, rand: nat) returns (r: Result<SpinReport>)
      modifies this, token
      ensures pausable.paused ==> r == Err(ContractPaused)
      ensures !pausable.paused && whitelist.OnlyWhitelisted(caller).Fail? ==> r == Err(AccountNotWhitelisted)
      ensures !pausable.paused && whitelist.OnlyWhitelisted(caller).Pass? ==>
        match SpinStep(old(WheelOf(caller)), freeSpinDelay, now, prizes, rand, Get(old(token.balances), address))
        case Err(e) => r == Err(e)
        case Ok((w, draw)) =>
          && r == Ok(SpinReport(draw, if faucet != ZERO then Some(caller) else None))
          && WheelOf(caller) == w
          && token.balances == (if draw.Some? then Moved(old(token.balances), address, caller, draw.value.paid) else old(token.balances))
      ensures forall a :: a != caller ==> WheelOf(a) == old(WheelOf(a))
      ensures r.Err? ==> lastFreeSpin == old(lastFreeSpin) && extraSpins == old(extraSpins)
      ensures r.Err? ==> token.balances == old(token.balances)
      ensures token.allowances == old(token.allowances)
      ensures prizes == old(prizes) && freeSpinDelay == old(freeSpinDelay)
      ensures extraSpinPrice == old(extraSpinPrice) && faucet == old(faucet)
    {
      var gate := pausable.WhenNotPaused();
      if gate.Fail? {
        return Err(gate.error);
      }
      gate := whitelist.OnlyWhitelisted(caller);
      if gate.Fail? {
        return Err(gate.error);
      }
      var refundTo := if faucet != ZERO then Some(caller) else None;
      var balance := Get(token.balances, address);
      var wheel := WheelOf(caller);
      var kind := KindOf(wheel, freeSpinDelay, now, balance > 0);
      if kind == Idle {
        return Ok(SpinReport(None, refundTo));
      }
      if prizes == [] {
        return Err(PrizesNotSet);
      }
      var prize := prizes[PrizeIndex(rand, |prizes|)];
      var paid := Payout(prize, balance);
      if kind == Free {
        lastFreeSpin := lastFreeSpin[caller := now];
      } else {
        extraSpins := extraSpins[caller := wheel.extraSpins - 1];
      }
      var sent := token.Transfer(address, caller, paid);
      if sent.Fail? {
        // unreachable: the machine holds at least `paid`
        assert false;
      }
      r := Ok(SpinReport(Some(Draw(prize, paid, kind == Extra)), refundTo));
    }
  }
}
