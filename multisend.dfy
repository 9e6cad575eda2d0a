/**
 * Multisend: one call pays a batch of recipients out of the Multisend
 * contract's own token balance. The call is refused while paused, for a
 * caller the enabled whitelist does not admit, for a null token, for an empty
 * batch and for a batch whose two lists differ in length; otherwise it
 * transfers `amounts[i]` to `recipients[i]` in order and reports the total.
 * A transfer that fails reverts the whole batch.
 */
module Multisending {
  import opened Common
  import opened Erc20
  import opened Pausable
  import opened Whitelisting
  import opened Rescue
  import opened Initialization

  /** The balance table after the transfers of a batch, in order, or the first transfer's failure. */
  function Sends(m: Balances, from: Account, rs: seq<Account>, amounts: seq<nat>): (r: Result<Balances>)
    requires |rs| == |amounts|
    ensures rs == [] ==> r == Ok(m)
    ensures r.Ok? && rs != [] ==> from != ZERO && forall i :: 0 <= i < |rs| ==> rs[i] != ZERO
    ensures r.Err? ==> r.error == ZeroAddress || r.error == InsufficientBalance
    decreases |rs|
  {
    if rs == [] then Ok(m)
    else
      match Sends(m, from, rs[..|rs| - 1], amounts[..|rs| - 1])
      case Err(e) => Err(e)
      case Ok(partial) => Send(partial, from, rs[|rs| - 1], amounts[|rs| - 1])
  }

  /** The total of a batch. */
  function Sum(amounts: seq<nat>): nat
  {
    if amounts == [] then 0 else Sum(amounts[..|amounts| - 1]) + amounts[|amounts| - 1]
  }

  /** What a batch sends to account `a`: the amounts of all the entries that name `a`. */
  function Credited(rs: seq<Account>, amounts: seq<nat>, a: Account): nat
    requires |rs| == |amounts|
  {
    if rs == [] then 0
    else Credited(rs[..|rs| - 1], amounts[..|rs| - 1], a) + (if rs[|rs| - 1] == a then amounts[|rs| - 1] else 0)
  }

  /**
   * A batch that goes through gets through each of its prefixes, and a
   * prefix that fails makes the batch fail with the same error.
   */
  lemma {:induction false} SendsPrefix(m: Balances, from: Account, rs: seq<Account>, amounts: seq<nat>, k: nat)
    requires |rs| == |amounts| && k <= |rs|
    ensures Sends(m, from, rs, amounts).Ok? ==> Sends(m, from, rs[..k], amounts[..k]).Ok?
    ensures Sends(m, from, rs[..k], amounts[..k]).Err? ==> Sends(m, from, rs, amounts) == Sends(m, from, rs[..k], amounts[..k])
    decreases |rs|
  {
    if k == |rs| {
      assert rs[..k] == rs && amounts[..k] == amounts;
    } else {
      var n := |rs| - 1;
      SendsPrefix(m, from, rs[..n], amounts[..n], k);
      assert rs[..n][..k] == rs[..k] && amounts[..n][..k] == amounts[..k];
    }
  }

  /**
   * Conservation: after a batch that goes through, every account holds what
   * it held plus what the batch credits it, and the sender additionally
   * lost the batch total.
   */
  lemma {:induction false} SendsEffect(m: Balances, from: Account, rs: seq<Account>, amounts: seq<nat>)
    requires |rs| == |amounts|
    requires Sends(m, from, rs, amounts).Ok?
    ensures forall a :: Get(Sends(m, from, rs, amounts).value, a) + (if a == from then Sum(amounts) else 0)
                        == Get(m, a) + Credited(rs, amounts, a)
    decreases |rs|
  {
    if rs != [] {
      var n := |rs| - 1;
      SendsEffect(m, from, rs[..n], amounts[..n]);
    }
  }

  /**
   * When the sender and the recipients are real accounts and the sender
   * pays no entry to itself, a batch goes through exactly when the sender
   * holds the batch total, and otherwise fails for an insufficient balance.
   */
  lemma {:induction false} SendsSucceeds(m: Balances, from: Account, rs: seq<Account>, amounts: seq<nat>)
    requires |rs| == |amounts|
    requires from != ZERO && ZERO !in rs && from !in rs
    ensures Sends(m, from, rs, amounts).Ok? <==> Sum(amounts) <= Get(m, from)
    ensures Sends(m, from, rs, amounts).Err? ==> Sends(m, from, rs, amounts).error == InsufficientBalance
    ensures Sends(m, from, rs, amounts).Ok? ==> Get(Sends(m, from, rs, amounts).value, from) == Get(m, from) - Sum(amounts)
    decreases |rs|
  {
    if rs != [] {
      var n := |rs| - 1;
      assert rs[n] in rs;
      SendsSucceeds(m, from, rs[..n], amounts[..n]);
    }
  }

  /** With pairwise distinct recipients, `recipients[i]` is credited exactly `amounts[i]`. */
  lemma {:induction false} CreditedDistinct(rs: seq<Account>, amounts: seq<nat>, i: nat)
    requires |rs| == |amounts| && i < |rs|
    requires forall j, k :: 0 <= j < k < |rs| ==> rs[j] != rs[k]
    ensures Credited(rs, amounts, rs[i]) == amounts[i]
    decreases |rs|
  {
    var n := |rs| - 1;
    if i == n {
      CreditedAbsent(rs[..n], amounts[..n], rs[i]);
    } else {
      CreditedDistinct(rs[..n], amounts[..n], i);
    }
  }

  /** An account no entry names is credited nothing. */
  lemma {:induction false} CreditedAbsent(rs: seq<Account>, amounts: seq<nat>, a: Account)
    requires |rs| == |amounts| && a !in rs
    ensures Credited(rs, amounts, a) == 0
    decreases |rs|
  {
    if rs != [] {
      var n := |rs| - 1;
      assert forall x :: x in rs[..n] ==> x in rs;
      CreditedAbsent(rs[..n], amounts[..n], a);
    }
  }

  class Multisend {
    const owner: Principal
    const address: Principal
    const pausable: PausableEx
    const whitelist: Whitelistable
    const rescuable: Rescuable
    const init: Initializable

    /** Deployment through the proxy: every role unassigned, whitelist off, not paused. */
    constructor (owner: Principal, address: Principal)
      ensures this.owner == owner && this.address == address
      ensures fresh(pausable) && fresh(whitelist) && fresh(rescuable) && fresh(init)
      ensures pausable.owner == owner && pausable.pauser == ZERO && !pausable.paused
      ensures whitelist.owner == owner && whitelist.whitelistAdmin == ZERO && !whitelist.enabled
      ensures whitelist.whitelisters == {} && whitelist.whitelisted == {}
      ensures rescuable.owner == owner && rescuable.address == address && rescuable.rescuer == ZERO
      ensures init.initialized
    {
      this.owner := owner;
      this.address := address;
      pausable := new PausableEx(owner);
      whitelist := new Whitelistable(owner);
      rescuable := new Rescuable(owner, address);
      init := new Initializable();
    }

    /** The checks `multisendToken` makes before any transfer, in order; a null token is the zero address. */
    function Validate(caller: Principal, token: Token?, recipients: seq<Account>, amounts: seq<nat>): (r: Outcome)
      reads pausable, whitelist
      ensures r.Pass? <==> !pausable.paused && whitelist.OnlyWhitelisted(caller).Pass? && token != null
                           && recipients != [] && |recipients| == |amounts|
      ensures pausable.paused ==> r == Fail(ContractPaused)
      ensures !pausable.paused && whitelist.OnlyWhitelisted(caller).Fail? ==> r == Fail(AccountNotWhitelisted)
      ensures !pausable.paused && whitelist.OnlyWhitelisted(caller).Pass? ==>
        && (token == null ==> r == Fail(ZeroTokenAddress))
        && (token != null && recipients == [] ==> r == Fail(EmptyRecipients))
        && (token != null && recipients != [] && |recipients| != |amounts| ==> r == Fail(LengthMismatch))
    {
      if pausable.paused then Fail(ContractPaused)
      else if whitelist.OnlyWhitelisted(caller).Fail? then whitelist.OnlyWhitelisted(caller)
      else if token == null then Fail(ZeroTokenAddress)
      else if recipients == [] then Fail(EmptyRecipients)
      else if |recipients| != |amounts| then Fail(LengthMismatch)
      else Pass
    }

    /**
     * `multisendToken(token, recipients, amounts)`: after validation, one
     * transfer per entry from this contract's balance; the result is the
     * total the `Multisend` event reports. A failing transfer reverts the
     * batch: the balance table is restored as it was.
     */
    method MultisendToken(caller: Principal, token: Token?, recipients: seq<Account>, amounts: seq<nat>) returns (r: Result<nat>)
      modifies token
      ensures Validate(caller, token, recipients, amounts).Fail? ==> r == Err(Validate(caller, token, recipients, amounts).error)
      ensures Validate(caller, token, recipients, amounts).Pass? ==>
        token != null &&
        Sends(old(token.balances), address, recipients, amounts)
          == (if r.Ok? then Ok(token.balances) else Err(r.error))
      ensures r.Ok? ==> r.value == Sum(amounts)
      ensures token != null && r.Err? ==> token.balances == old(token.balances)
      ensures token != null ==> token.allowances == old(token.allowances)
    {
      var valid := Validate(caller, token, recipients, amounts);
      if valid.Fail? {
        return Err(valid.error);
      }
      var snapshot := token.balances;
      var i := 0;
      while i < |recipients|
        invariant 0 <= i <= |recipients|
        invariant Sends(snapshot, address, recipients[..i], amounts[..i]) == Ok(token.balances)
        invariant token.allowances == old(token.allowances)
      {
        var sent := token.Transfer(address, recipients[i], amounts[i]);
        assert recipients[..i + 1][..i] == recipients[..i] && amounts[..i + 1][..i] == amounts[..i];
        if sent.Fail? {
          SendsPrefix(snapshot, address, recipients, amounts, i + 1);
          token.balances := snapshot;
          return Err(sent.error);
        }
        i := i + 1;
      }
      assert recipients[..i] == recipients && amounts[..i] == amounts;
      r := Ok(Sum(amounts));
    }
  }

  /**
   * A batch of distinct recipients that are neither zero nor the Multisend
   * contract, funded with at least its total: it goes through, the contract
   * loses exactly the total, and `recipients[i]` gains exactly `amounts[i]`.
   */
  lemma BatchPaysEachRecipient(m: Balances, from: Principal, rs: seq<Account>, amounts: seq<nat>, i: nat)
    requires |rs| == |amounts| && i < |rs|
    requires ZERO !in rs && from !in rs
    requires forall j, k :: 0 <= j < k < |rs| ==> rs[j] != rs[k]
    requires Sum(amounts) <= Get(m, from)
    ensures Sends(m, from, rs, amounts).Ok?
    ensures Get(Sends(m, from, rs, amounts).value, from) == Get(m, from) - Sum(amounts)
    ensures Get(Sends(m, from, rs, amounts).value, rs[i]) == Get(m, rs[i]) + amounts[i]
  {
    SendsSucceeds(m, from, rs, amounts);
    SendsEffect(m, from, rs, amounts);
    CreditedDistinct(rs, amounts, i);
    assert rs[i] in rs;
  }
}
