/** The older liquidity proxy of sc-distribution-rs/src/proxy_pair.rs.

    It shares the escrow of ProxyPair ("funds", keyed by caller, token and
    nonce) but differs from it in four ways that are modelled as written:
    its "not ongoing" guard passes only while the global operation IS
    ongoing; a decrease stores the difference even when it is zero; only
    fungible payments are escrowed, and add-liquidity takes the locked SFT
    as the payment of the call itself; the wrapped LP it creates is neither
    numbered nor sent. */
module DistributionProxyPair {
  import opened Common
  import opened GlobalOp
  import opened ProxyPair

  /** The stored state the endpoints read. */
  datatype DistProxyState = DistProxyState(
    ongoing: bool,
    pairs: set<Address>,
    lockedTokenId: TokenId,
    assetTokenId: TokenId,
    wrappedLpTokenId: TokenId,
    funds: Funds)

  /** The amounts and minimums of addLiquidityProxy. */
  datatype PoolArgs = PoolArgs(pair: Address, firstAmount: nat, firstMin: nat, secondAmount: nat, secondMin: nat)

  /** The SFT payment of the call. */
  datatype Payment = Payment(token: TokenId, nonce: Nonce, amount: nat)

  datatype DistStep = DistStep(outcome: Outcome, effects: seq<Effect>, funds: Funds)

  /** require_global_operation_not_ongoing as written: it passes when the
      flag is set. */
  function RequireNotOngoingAsWritten(ongoing: bool): (o: Outcome)
    ensures o.Pass? <==> ongoing
    ensures o.Fail? ==> o.msg == "Global operation ongoing"
  {
    if ongoing then Pass else Fail("Global operation ongoing")
  }

  /** decrease_temporary_funds_amount of this file: BigUint subtraction, the
      result stored even when it is zero. */
  function StoreDebit(m: Funds, k: FundsKey, amount: nat): (r: Result<Funds>)
    ensures r.Err? <==> FundsOf(m, k) < amount
    ensures r.Err? ==> r.msg == Underflow
    ensures r.Ok? ==> k in r.value && r.value[k] == FundsOf(m, k) - amount
    ensures r.Ok? ==> forall j :: j != k ==> FundsOf(r.value, j) == FundsOf(m, j) && (j in r.value <==> j in m)
  {
    if FundsOf(m, k) < amount then Err(Underflow) else Ok(m[k := FundsOf(m, k) - amount])
  }

  /** The guards of addLiquidityProxy before the attributes are read. */
  function DistAddLiquidityCheck(s: DistProxyState, pair: Address, p: Payment): (o: Outcome)
    ensures o.Pass? <==> s.ongoing && pair in s.pairs && p.nonce != 0 && p.token == s.lockedTokenId && p.amount != 0
  {
    if !s.ongoing then RequireNotOngoingAsWritten(s.ongoing)
    else if pair !in s.pairs then Fail("Not an intermediated pair")
    else if p.nonce == 0 then Fail("Only semi-fungible tokens are accepted")
    else if p.token != s.lockedTokenId then Fail("Payment should be locked asset token id")
    else if p.amount == 0 then Fail("Paymend amount cannot be zero")
    else Pass
  }

  /** The escrow after the pool call and the consumed locked quantity. The
      locked key is the payment's; the other leg is looked up with nonce 0
      under the token the pair reports. */
  function DistReconcile(m: Funds, caller: Address, assetTokenId: TokenId, p: Payment, res: PoolResult)
    : (r: Result<(Funds, nat)>)
    ensures (r.Err? && r.msg == "Add liquidity did not return asset token id")
      <==> (res.firstUsed.tokenId != assetTokenId && res.secondUsed.tokenId != assetTokenId)
    ensures r.Ok? ==> (r.value.1 <= p.amount
      && r.value.1 == (if res.firstUsed.tokenId == assetTokenId then res.firstUsed.amount else res.secondUsed.amount))
    ensures r.Err? && r.msg != "Add liquidity did not return asset token id" ==> r.msg == Underflow
    ensures res.firstUsed.tokenId == assetTokenId ==> (
      var k1 := FundsKey(caller, p.token, p.nonce);
      var k2 := FundsKey(caller, res.secondUsed.tokenId, 0);
      r.Ok? <==> && res.firstUsed.amount <= p.amount && res.firstUsed.amount <= FundsOf(m, k1)
                 && res.secondUsed.amount + (if k2 == k1 then res.firstUsed.amount else 0) <= FundsOf(m, k2))
    ensures res.firstUsed.tokenId != assetTokenId && res.secondUsed.tokenId == assetTokenId ==> (
      var k1 := FundsKey(caller, res.firstUsed.tokenId, 0);
      var k2 := FundsKey(caller, p.token, p.nonce);
      r.Ok? <==> && res.secondUsed.amount <= p.amount && res.firstUsed.amount <= FundsOf(m, k1)
                 && res.secondUsed.amount + (if k2 == k1 then res.firstUsed.amount else 0) <= FundsOf(m, k2))
  {
    var locked := FundsKey(caller, p.token, p.nonce);
    if res.firstUsed.tokenId == assetTokenId then
      var consumed := res.firstUsed.amount;
      if p.amount < consumed then Err(Underflow)
      else
        var d1 := StoreDebit(m, locked, consumed);
        if d1.Err? then Err(d1.msg)
        else
          var d2 := StoreDebit(d1.value, FundsKey(caller, res.secondUsed.tokenId, 0), res.secondUsed.amount);
          if d2.Err? then Err(d2.msg) else Ok((d2.value, consumed))
    else if res.secondUsed.tokenId == assetTokenId then
      var consumed := res.secondUsed.amount;
      if p.amount < consumed then Err(Underflow)
      else
        var d1 := StoreDebit(m, FundsKey(caller, res.firstUsed.tokenId, 0), res.firstUsed.amount);
        if d1.Err? then Err(d1.msg)
        else
          var d2 := StoreDebit(d1.value, locked, consumed);
          if d2.Err? then Err(d2.msg) else Ok((d2.value, consumed))
    else Err("Add liquidity did not return asset token id")
  }

  /** The log of a successful addLiquidityProxy: the SFT is replaced by
      minted asset for the pair, the unused asset is burned, the consumed
      part of the SFT is burned, and a wrapped-LP batch is created carrying
      the locked position's schedule. */
  function DistAddLiquidityEffects(s: DistProxyState, a: PoolArgs, p: Payment, res: PoolResult, consumed: nat, ms: seq<Milestone>)
    : seq<Effect>
    requires consumed <= p.amount
  {
    [ Mint(s.assetTokenId, p.amount),
      ForwardToPair(a.pair, s.assetTokenId, p.amount),
      PairAddLiquidity(a.pair, [a.firstAmount, a.firstMin, a.secondAmount, a.secondMin]) ]
    + BurnIfPositive(s.assetTokenId, p.amount - consumed)
    + [ Burn(p.token, p.nonce, consumed),
        Create(s.wrappedLpTokenId, res.lp.amount, WrappedLpWithMilestones(res.lp.tokenId, consumed, ms)) ]
  }

  /** addLiquidityProxy from state `s`; `lockedAttrs` is what the payment's
      attributes decode to. */
  function DistAddLiquidityTransition(s: DistProxyState, caller: Address, a: PoolArgs, p: Payment, lockedAttrs: Attributes, res: PoolResult)
    : DistStep
  {
    var check := DistAddLiquidityCheck(s, a.pair, p);
    if check.Fail? then DistStep(check, [], s.funds)
    else if !lockedAttrs.Locked? then DistStep(Fail("Decoding error"), [], s.funds)
    else
      var credited := Credit(s.funds, FundsKey(caller, p.token, p.nonce), p.amount);
      var rc := DistReconcile(credited, caller, s.assetTokenId, p, res);
      if rc.Err? then DistStep(Fail(rc.msg), [], s.funds)
      else DistStep(Pass, DistAddLiquidityEffects(s, a, p, res, rc.value.1, lockedAttrs.locked.milestones), rc.value.0)
  }

  class DistributionProxyPairModule {
    const owner: Address
    const op: GlobalOperation
    /** Storage "intermediated_pairs". */
    var intermediatedPairs: set<Address>
    /** Storage "funds". */
    var temporaryFunds: Funds
    var lockedTokenId: TokenId
    var assetTokenId: TokenId
    /** Storage "wrapped_tp_token_id". */
    var wrappedLpTokenId: TokenId

    function State(): DistProxyState
      reads this, op
    {
      DistProxyState(op.ongoing, intermediatedPairs, lockedTokenId, assetTokenId, wrappedLpTokenId, temporaryFunds)
    }

    constructor (owner: Address, op: GlobalOperation, lockedTokenId: TokenId, assetTokenId: TokenId, wrappedLpTokenId: TokenId)
      ensures this.owner == owner && this.op == op && intermediatedPairs == {} && temporaryFunds == map[]
      ensures this.lockedTokenId == lockedTokenId && this.assetTokenId == assetTokenId && this.wrappedLpTokenId == wrappedLpTokenId
    {
      this.owner := owner;
      this.op := op;
      intermediatedPairs := {};
      temporaryFunds := map[];
      this.lockedTokenId := lockedTokenId;
      this.assetTokenId := assetTokenId;
      this.wrappedLpTokenId := wrappedLpTokenId;
    }

    /** addPairToIntermediate */
    method AddPairToIntermediate(caller: Address, pair: Address) returns (o: Outcome)
      modifies this
      ensures caller != owner ==> o == Fail("Permission denied") && intermediatedPairs == old(intermediatedPairs)
      ensures caller == owner ==> o == Pass && intermediatedPairs == old(intermediatedPairs) + {pair}
      ensures temporaryFunds == old(temporaryFunds)
      ensures lockedTokenId == old(lockedTokenId) && assetTokenId == old(assetTokenId) && wrappedLpTokenId == old(wrappedLpTokenId)
    {
      if caller != owner {
        return Fail("Permission denied");
      }
      intermediatedPairs := intermediatedPairs + {pair};
      o := Pass;
    }

    /** acceptEsdtPaymentProxy: forwards a fungible payment to the pair and
      escrows it. */
    method AcceptEsdtPaymentProxy(caller: Address, pair: Address, p: Payment) returns (o: Outcome, fx: seq<Effect>)
      modifies this
      ensures o.Pass? <==> op.ongoing && pair in intermediatedPairs && p.nonce == 0 && p.amount != 0
      ensures !op.ongoing ==> o == Fail("Global operation ongoing")
      ensures op.ongoing && pair !in intermediatedPairs ==> o == Fail("Not an intermediated pair")
      ensures op.ongoing && pair in intermediatedPairs && p.nonce != 0 ==> o == Fail("Only fungible tokens are accepted")
      ensures op.ongoing && pair in intermediatedPairs && p.nonce == 0 && p.amount == 0 ==> o == Fail("Paymend amount cannot be zero")
      ensures o.Pass? ==> (fx == [ForwardToPair(pair, p.token, p.amount)]
        && temporaryFunds == Credit(old(temporaryFunds), FundsKey(caller, p.token, 0), p.amount))
      ensures o.Fail? ==> fx == [] && temporaryFunds == old(temporaryFunds)
      ensures intermediatedPairs == old(intermediatedPairs)
      ensures lockedTokenId == old(lockedTokenId) && assetTokenId == old(assetTokenId) && wrappedLpTokenId == old(wrappedLpTokenId)
    {
      o := RequireNotOngoingAsWritten(op.ongoing);
      if o.Fail? {
        return o, [];
      }
      if pair !in intermediatedPairs {
        return Fail("Not an intermediated pair"), [];
      }
      if p.nonce != 0 {
        return Fail("Only fungible tokens are accepted"), [];
      }
      if p.amount == 0 {
        return Fail("Paymend amount cannot be zero"), [];
      }
      fx := [ForwardToPair(pair, p.token, p.amount)];
      IncreaseTemporaryFunds(FundsKey(caller, p.token, p.nonce), p.amount);
    }

    /** increase_temporary_funds_amount */
    method IncreaseTemporaryFunds(k: FundsKey, amount: nat)
      modifies this
      ensures temporaryFunds == Credit(old(temporaryFunds), k, amount)
      ensures intermediatedPairs == old(intermediatedPairs)
      ensures lockedTokenId == old(lockedTokenId) && assetTokenId == old(assetTokenId) && wrappedLpTokenId == old(wrappedLpTokenId)
    {
      var oldAmount := FundsOf(temporaryFunds, k);
      temporaryFunds := temporaryFunds[k := oldAmount + amount];
    }

    /** reclaimTemporaryFundsProxy: asks the pair to return what it holds,
      sends both escrows back, clears them and burns the asset balance. */
    method ReclaimTemporaryFundsProxy(caller: Address, pair: Address, firstToken: TokenId, firstNonce: Nonce, secondToken: TokenId, secondNonce: Nonce)
      returns (o: Outcome, fx: seq<Effect>)
      modifies this
      ensures o.Pass? <==> op.ongoing && pair in intermediatedPairs
      ensures !op.ongoing ==> o == Fail("Global operation ongoing")
      ensures op.ongoing && pair !in intermediatedPairs ==> o == Fail("Not an intermediated pair")
      ensures o.Fail? ==> fx == [] && temporaryFunds == old(temporaryFunds)
      ensures o.Pass? ==> var r := Reclaim(old(temporaryFunds), FundsKey(caller, firstToken, firstNonce), FundsKey(caller, secondToken, secondNonce));
        fx == [PairReclaim(pair)] + r.effects + [BurnBalance(assetTokenId)] && temporaryFunds == r.funds
      ensures intermediatedPairs == old(intermediatedPairs)
      ensures lockedTokenId == old(lockedTokenId) && assetTokenId == old(assetTokenId) && wrappedLpTokenId == old(wrappedLpTokenId)
    {
      o := RequireNotOngoingAsWritten(op.ongoing);
      if o.Fail? {
        return o, [];
      }
      if pair !in intermediatedPairs {
        return Fail("Not an intermediated pair"), [];
      }
      var k1 := FundsKey(caller, firstToken, firstNonce);
      var k2 := FundsKey(caller, secondToken, secondNonce);
      var first := TransferIfPositive(caller, firstToken, firstNonce, FundsOf(temporaryFunds, k1));
      temporaryFunds := temporaryFunds - {k1};
      var second := TransferIfPositive(caller, secondToken, secondNonce, FundsOf(temporaryFunds, k2));
      temporaryFunds := temporaryFunds - {k2};
      fx := [PairReclaim(pair)] + (first + second) + [BurnBalance(assetTokenId)];
    }

    /** addLiquidityProxy, given the decoded attributes of the payment and
      the pool's answer. */
    method AddLiquidityProxy(caller: Address, a: PoolArgs, p: Payment, lockedAttrs: Attributes, res: PoolResult)
      returns (o: Outcome, fx: seq<Effect>)
      modifies this
      ensures DistStep(o, fx, temporaryFunds) == DistAddLiquidityTransition(old(State()), caller, a, p, lockedAttrs, res)
      ensures intermediatedPairs == old(intermediatedPairs)
      ensures lockedTokenId == old(lockedTokenId) && assetTokenId == old(assetTokenId) && wrappedLpTokenId == old(wrappedLpTokenId)
    {
      o := DistAddLiquidityCheck(State(), a.pair, p);
      if o.Fail? {
        return o, [];
      }
      if !lockedAttrs.Locked? {
        return Fail("Decoding error"), [];
      }
      var credited := Credit(temporaryFunds, FundsKey(caller, p.token, p.nonce), p.amount);
      var rc := DistReconcile(credited, caller, assetTokenId, p, res);
      if rc.Err? {
        return Fail(rc.msg), [];
      }
      fx := DistAddLiquidityEffects(State(), a, p, res, rc.value.1, lockedAttrs.locked.milestones);
      temporaryFunds := rc.value.0;
    }
  }

  // ---------------------------------------------------------------------
  // Lemmas

  /** The two decreases of this repository differ exactly on a decrease to
      zero: the common one clears the entry, this one stores a zero. */
  lemma DecreaseVariantsDiffer(m: Funds, k: FundsKey)
    ensures Debit(m, k, FundsOf(m, k)).Ok? && k !in Debit(m, k, FundsOf(m, k)).value
    ensures StoreDebit(m, k, FundsOf(m, k)).Ok? && k in StoreDebit(m, k, FundsOf(m, k)).value
      && StoreDebit(m, k, FundsOf(m, k)).value[k] == 0
  {
  }

  /** A successful addLiquidityProxy escrows the payment and keeps its
      unconsumed part, burns the unused asset and the consumed SFT, and
      neither sends the wrapped LP nor transfers anything else. */
  lemma {:induction false} DistAddLiquidityOutcome(s: DistProxyState, caller: Address, a: PoolArgs, p: Payment, lockedAttrs: Attributes, res: PoolResult)
    requires DistAddLiquidityTransition(s, caller, a, p, lockedAttrs, res).outcome.Pass?
    ensures var step := DistAddLiquidityTransition(s, caller, a, p, lockedAttrs, res);
      var lockedKey := FundsKey(caller, p.token, p.nonce);
      var consumed := if res.firstUsed.tokenId == s.assetTokenId then res.firstUsed.amount else res.secondUsed.amount;
      && s.ongoing && p.nonce != 0 && p.token == s.lockedTokenId && p.amount != 0 && lockedAttrs.Locked?
      && consumed <= p.amount
      && lockedKey in step.funds && step.funds[lockedKey] == FundsOf(s.funds, lockedKey) + p.amount - consumed
      && Burn(p.token, p.nonce, consumed) in step.effects
      && Create(s.wrappedLpTokenId, res.lp.amount, WrappedLpWithMilestones(res.lp.tokenId, consumed, lockedAttrs.locked.milestones)) in step.effects
      && (forall e :: e in step.effects ==> !e.Transfer?)
  {
    var lockedKey := FundsKey(caller, p.token, p.nonce);
    var credited := Credit(s.funds, lockedKey, p.amount);
    var rc := DistReconcile(credited, caller, s.assetTokenId, p, res);
    var consumed := rc.value.1;
    if res.firstUsed.tokenId == s.assetTokenId {
      var d1 := StoreDebit(credited, lockedKey, consumed);
      var other := FundsKey(caller, res.secondUsed.tokenId, 0);
      assert other != lockedKey;
      assert rc.value.0 == StoreDebit(d1.value, other, res.secondUsed.amount).value;
    } else {
      var other := FundsKey(caller, res.firstUsed.tokenId, 0);
      assert other != lockedKey;
      var d1 := StoreDebit(credited, other, res.firstUsed.amount);
      assert FundsOf(d1.value, lockedKey) == FundsOf(credited, lockedKey);
    }
    var fx := DistAddLiquidityEffects(s, a, p, res, consumed, lockedAttrs.locked.milestones);
    forall e | e in fx
      ensures !e.Transfer?
    {
    }
  }
}
