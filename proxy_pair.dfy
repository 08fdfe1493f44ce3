/** The liquidity proxy of common/modules/src/proxy_pair.rs.

    A user escrows the two tokens of a pair with the proxy ("temporary
    funds", keyed by caller, token and nonce), then asks it to add them as
    liquidity. One leg is a locked-asset SFT: the proxy mints that many
    fungible asset tokens in its place, and in return hands the user a
    wrapped-LP SFT recording the LP amount and the locked quantity consumed.
    Removing the wrapped LP splits what the pair returns between locked
    tokens (up to the quantity invested) and plain asset tokens.

    The pair contract's answers (its add-liquidity result, LP token id and
    position) are parameters; host calls are returned as a log. A failed
    endpoint rolls back, so it changes nothing and its log is empty. */
module ProxyPair {
  import opened Common
  import opened GlobalOp

  /** The key of storage "funds". */
  datatype FundsKey = FundsKey(caller: Address, token: TokenId, nonce: Nonce)

  type Funds = map<FundsKey, nat>

  /** What the arguments of addLiquidityProxy name. */
  datatype AddLiquidityArgs = AddLiquidityArgs(
    pair: Address,
    firstToken: TokenId, firstNonce: Nonce, firstMin: nat,
    secondToken: TokenId, secondNonce: Nonce, secondMin: nat)

  /** AddLiquidityResultType: the LP tokens received and the two amounts used. */
  datatype PoolResult = PoolResult(lp: TokenAmount, firstUsed: TokenAmount, secondUsed: TokenAmount)

  /** The stored state the endpoints read. */
  datatype ProxyState = ProxyState(
    ongoing: bool,
    pairs: set<Address>,
    lockedTokenId: TokenId,
    assetTokenId: TokenId,
    wrappedLpTokenId: TokenId,
    funds: Funds,
    nonce: Nonce)

  /** The escrow after the pool call, the consumed locked quantity, the
      nonce of the locked leg and the minted asset left unused. */
  datatype Reconciled = Reconciled(funds: Funds, consumed: nat, lockedNonce: Nonce, unusedMinted: nat)

  datatype Step = Step(outcome: Outcome, effects: seq<Effect>, funds: Funds, nonce: Nonce)

  /** How removeLiquidityProxy divides what the pair returned. */
  datatype RemoveSplit = RemoveSplit(
    lpTokenId: TokenId,
    fungibleToken: TokenId, fungibleAmount: nat,
    assetsReceived: nat, invested: nat, lockedNonce: Nonce)

  // ---------------------------------------------------------------------
  // The escrow ledger

  /** An unset storage entry reads as 0. */
  function FundsOf(m: Funds, k: FundsKey): nat
  {
    if k in m then m[k] else 0
  }

  /** The common module never stores a zero escrow. */
  predicate NoZeroEntries(m: Funds)
  {
    forall k :: k in m ==> m[k] > 0
  }

  /** increase_temporary_funds_amount */
  function Credit(m: Funds, k: FundsKey, amount: nat): (r: Funds)
    ensures FundsOf(r, k) == FundsOf(m, k) + amount
    ensures forall j :: j != k ==> FundsOf(r, j) == FundsOf(m, j)
    ensures NoZeroEntries(m) && amount > 0 ==> NoZeroEntries(r)
  {
    m[k := FundsOf(m, k) + amount]
  }

  /** decrease_temporary_funds_amount: BigUint subtraction, then the entry
      is cleared when it reaches zero. */
  function Debit(m: Funds, k: FundsKey, amount: nat): (r: Result<Funds>)
    ensures r.Err? <==> FundsOf(m, k) < amount
    ensures r.Err? ==> r.msg == Underflow
    ensures r.Ok? ==> FundsOf(r.value, k) == FundsOf(m, k) - amount && (k in r.value <==> FundsOf(r.value, k) > 0)
    ensures r.Ok? ==> forall j :: j != k ==> FundsOf(r.value, j) == FundsOf(m, j) && (j in r.value <==> j in m)
    ensures r.Ok? && NoZeroEntries(m) ==> NoZeroEntries(r.value)
  {
    if FundsOf(m, k) < amount then Err(Underflow)
    else if FundsOf(m, k) - amount > 0 then Ok(m[k := FundsOf(m, k) - amount])
    else Ok(m - {k})
  }

  // ---------------------------------------------------------------------
  // addLiquidityProxy

  /** The guards of addLiquidityProxy, in their order. */
  function AddLiquidityCheck(s: ProxyState, caller: Address, a: AddLiquidityArgs): (o: Outcome)
    ensures o.Pass? <==>
      && !s.ongoing && a.pair in s.pairs && a.firstToken != a.secondToken
      && (a.firstNonce == 0) != (a.secondNonce == 0)
      && (a.firstToken == s.lockedTokenId || a.secondToken == s.lockedTokenId)
      && FundsOf(s.funds, FundsKey(caller, a.firstToken, a.firstNonce)) > 0
      && FundsOf(s.funds, FundsKey(caller, a.secondToken, a.secondNonce)) > 0
  {
    if s.ongoing then Fail("Global operation ongoing")
    else if a.pair !in s.pairs then Fail("Not an intermediated pair")
    else if a.firstToken == a.secondToken then Fail("Identical tokens")
    else if !((a.firstNonce == 0 && a.secondNonce != 0) || (a.firstNonce != 0 && a.secondNonce == 0)) then
      Fail("This endpoint accepts one Fungible and one SemiFungible")
    else if a.firstToken != s.lockedTokenId && a.secondToken != s.lockedTokenId then
      Fail("One token should be the locked asset token")
    else if FundsOf(s.funds, FundsKey(caller, a.firstToken, a.firstNonce)) == 0 then Fail("First token amount is zero")
    else if FundsOf(s.funds, FundsKey(caller, a.secondToken, a.secondNonce)) == 0 then Fail("Second token amount is zero")
    else Pass
  }

  /** forward_to_pair: a fungible leg goes as it is; an SFT leg is replaced
      by the same quantity of freshly minted asset tokens. */
  function ForwardEffects(pair: Address, token: TokenId, nonce: Nonce, amount: nat, assetTokenId: TokenId): seq<Effect>
  {
    if nonce == 0 then [ForwardToPair(pair, token, amount)]
    else MintIfPositive(assetTokenId, amount) + [ForwardToPair(pair, assetTokenId, amount)]
  }

  /** The reconciliation after the pool call: the leg the pair reports as
      the asset token is the locked leg; what it used is consumed and the rest
      of the minted asset is burned; both escrows drop by what was used. The
      other leg's key is built from the token the pair reports. */
  function Reconcile(m: Funds, caller: Address, assetTokenId: TokenId, a: AddLiquidityArgs, firstAmount: nat, secondAmount: nat, res: PoolResult)
    : (r: Result<Reconciled>)
    ensures (r.Err? && r.msg == "Add liquidity did not return asset token id")
      <==> (res.firstUsed.tokenId != assetTokenId && res.secondUsed.tokenId != assetTokenId)
    ensures r.Ok? ==> (r.value.consumed + r.value.unusedMinted
      == (if res.firstUsed.tokenId == assetTokenId then firstAmount else secondAmount))
    ensures r.Ok? ==> r.value.consumed == (if res.firstUsed.tokenId == assetTokenId then res.firstUsed.amount else res.secondUsed.amount)
    ensures r.Ok? ==> r.value.lockedNonce == (if res.firstUsed.tokenId == assetTokenId then a.firstNonce else a.secondNonce)
    ensures r.Ok? && NoZeroEntries(m) ==> NoZeroEntries(r.value.funds)
    ensures r.Err? && r.msg != "Add liquidity did not return asset token id" ==> r.msg == Underflow
    ensures res.firstUsed.tokenId == assetTokenId ==> (
      var k1 := FundsKey(caller, a.firstToken, a.firstNonce);
      var k2 := FundsKey(caller, res.secondUsed.tokenId, a.secondNonce);
      r.Ok? <==> && res.firstUsed.amount <= firstAmount && res.firstUsed.amount <= FundsOf(m, k1)
                 && res.secondUsed.amount + (if k2 == k1 then res.firstUsed.amount else 0) <= FundsOf(m, k2))
    ensures res.firstUsed.tokenId != assetTokenId && res.secondUsed.tokenId == assetTokenId ==> (
      var k1 := FundsKey(caller, res.firstUsed.tokenId, a.firstNonce);
      var k2 := FundsKey(caller, a.secondToken, a.secondNonce);
      r.Ok? <==> && res.secondUsed.amount <= secondAmount && res.firstUsed.amount <= FundsOf(m, k1)
                 && res.secondUsed.amount + (if k2 == k1 then res.firstUsed.amount else 0) <= FundsOf(m, k2))
  {
    if res.firstUsed.tokenId == assetTokenId then
      var consumed := res.firstUsed.amount;
      if firstAmount < consumed then Err(Underflow)
      else
        var d1 := Debit(m, FundsKey(caller, a.firstToken, a.firstNonce), consumed);
        if d1.Err? then Err(d1.msg)
        else
          var d2 := Debit(d1.value, FundsKey(caller, res.secondUsed.tokenId, a.secondNonce), res.secondUsed.amount);
          if d2.Err? then Err(d2.msg)
          else Ok(Reconciled(d2.value, consumed, a.firstNonce, firstAmount - consumed))
    else if res.secondUsed.tokenId == assetTokenId then
      var consumed := res.secondUsed.amount;
      if secondAmount < consumed then Err(Underflow)
      else
        var d1 := Debit(m, FundsKey(caller, res.firstUsed.tokenId, a.firstNonce), res.firstUsed.amount);
        if d1.Err? then Err(d1.msg)
        else
          var d2 := Debit(d1.value, FundsKey(caller, a.secondToken, a.secondNonce), consumed);
          if d2.Err? then Err(d2.msg)
          else Ok(Reconciled(d2.value, consumed, a.secondNonce, secondAmount - consumed))
    else Err("Add liquidity did not return asset token id")
  }

  /** The log of a successful addLiquidityProxy. The pair's addLiquidity is
      called with (first amount, second amount, first min, second min)
      although its signature reads (first desired, first min, second
      desired, second min): the arguments are recorded as passed. */
  function AddLiquidityEffects(s: ProxyState, caller: Address, a: AddLiquidityArgs, firstAmount: nat, secondAmount: nat, res: PoolResult, rc: Reconciled)
    : seq<Effect>
  {
    ForwardEffects(a.pair, a.firstToken, a.firstNonce, firstAmount, s.assetTokenId)
    + ForwardEffects(a.pair, a.secondToken, a.secondNonce, secondAmount, s.assetTokenId)
    + [PairAddLiquidity(a.pair, [firstAmount, secondAmount, a.firstMin, a.secondMin])]
    + BurnIfPositive(s.assetTokenId, rc.unusedMinted)
    + [ Create(s.wrappedLpTokenId, res.lp.amount, WrappedLp(res.lp.tokenId, res.lp.amount, rc.consumed, rc.lockedNonce)),
        Transfer(caller, s.wrappedLpTokenId, s.nonce + 1, res.lp.amount) ]
  }

  /** addLiquidityProxy from state `s`, given the pool's answer. */
  function AddLiquidityTransition(s: ProxyState, caller: Address, a: AddLiquidityArgs, res: PoolResult): Step
  {
    var check := AddLiquidityCheck(s, caller, a);
    if check.Fail? then Step(check, [], s.funds, s.nonce)
    else
      var firstAmount := FundsOf(s.funds, FundsKey(caller, a.firstToken, a.firstNonce));
      var secondAmount := FundsOf(s.funds, FundsKey(caller, a.secondToken, a.secondNonce));
      if res.firstUsed.tokenId != a.firstToken && res.secondUsed.tokenId != a.secondToken then
        Step(Fail("Bad token order"), [], s.funds, s.nonce)
      else
        var rc := Reconcile(s.funds, caller, s.assetTokenId, a, firstAmount, secondAmount, res);
        if rc.Err? then Step(Fail(rc.msg), [], s.funds, s.nonce)
        else Step(Pass, AddLiquidityEffects(s, caller, a, firstAmount, secondAmount, res, rc.value), rc.value.funds, s.nonce + 1)
  }

  // ---------------------------------------------------------------------
  // removeLiquidityProxy

  /** The guards and arithmetic of removeLiquidityProxy. `attrs` is what the
      wrapped-LP batch's attributes decode to, `pairLpToken` the pair's LP
      token id and `position` its getTokensForGivenPosition answer. */
  function RemoveLiquidityPlan(s: ProxyState, pair: Address, paymentToken: TokenId, paymentNonce: Nonce, amount: nat,
                               pairLpToken: TokenId, attrs: Attributes, position: (TokenAmount, TokenAmount))
    : (r: Result<RemoveSplit>)
    ensures r.Ok? ==> && !s.ongoing && pair in s.pairs && paymentNonce != 0 && amount != 0
                      && paymentToken == s.wrappedLpTokenId && attrs.WrappedLp? && attrs.lpTokenId == pairLpToken
    ensures r.Ok? ==> && r.value.invested > 0
                      && r.value.invested * attrs.lpTokenTotalAmount <= amount * attrs.lockedAssetsInvested
                      && amount * attrs.lockedAssetsInvested < (r.value.invested + 1) * attrs.lpTokenTotalAmount
    ensures r.Ok? ==> (if position.0.tokenId == s.assetTokenId
                       then r.value.assetsReceived == position.0.amount && r.value.fungibleToken == position.1.tokenId
                            && r.value.fungibleAmount == position.1.amount
                       else position.1.tokenId == s.assetTokenId && r.value.assetsReceived == position.1.amount
                            && r.value.fungibleToken == position.0.tokenId && r.value.fungibleAmount == position.0.amount)
    ensures (r.Err? && r.msg == "Bad tokens received from pair SC") ==>
      position.0.tokenId != s.assetTokenId && position.1.tokenId != s.assetTokenId
    ensures r.Ok? <==> && !s.ongoing && pair in s.pairs && paymentNonce != 0 && amount != 0
                       && paymentToken == s.wrappedLpTokenId && attrs.WrappedLp? && attrs.lpTokenId == pairLpToken
                       && attrs.lpTokenTotalAmount > 0 && amount * attrs.lockedAssetsInvested / attrs.lpTokenTotalAmount > 0
                       && (position.0.tokenId == s.assetTokenId || position.1.tokenId == s.assetTokenId)
    ensures && !s.ongoing && pair in s.pairs && paymentNonce != 0 && amount != 0
            && paymentToken == s.wrappedLpTokenId && attrs.WrappedLp? && attrs.lpTokenId == pairLpToken
            && attrs.lpTokenTotalAmount > 0 && amount * attrs.lockedAssetsInvested / attrs.lpTokenTotalAmount > 0
            && position.0.tokenId != s.assetTokenId && position.1.tokenId != s.assetTokenId
            ==> r == Err("Bad tokens received from pair SC")
  {
    if s.ongoing then Err("Global operation ongoing")
    else if pair !in s.pairs then Err("Not an intermediated pair")
    else if paymentNonce == 0 then Err("Can only be called with an SFT")
    else if amount == 0 then Err("Paymend amount cannot be zero")
    else if paymentToken != s.wrappedLpTokenId then Err("Wrong input token")
    else if !attrs.WrappedLp? then Err("Decoding error")
    else if pairLpToken != attrs.lpTokenId then Err("Bad input address")
    else if attrs.lpTokenTotalAmount == 0 then Err(DivisionByZero)
    else
      var invested := amount * attrs.lockedAssetsInvested / attrs.lpTokenTotalAmount;
      FloorDivBounds(amount * attrs.lockedAssetsInvested, attrs.lpTokenTotalAmount);
      if invested == 0 then Err("Not enough wrapped lp token provided")
      else if position.0.tokenId == s.assetTokenId then
        Ok(RemoveSplit(attrs.lpTokenId, position.1.tokenId, position.1.amount, position.0.amount, invested, attrs.lockedAssetsNonce))
      else if position.1.tokenId == s.assetTokenId then
        Ok(RemoveSplit(attrs.lpTokenId, position.0.tokenId, position.0.amount, position.1.amount, invested, attrs.lockedAssetsNonce))
      else Err("Bad tokens received from pair SC")
  }

  /** The payout and clean-up of removeLiquidityProxy: up to the invested
      quantity goes back as locked tokens, a surplus as plain asset tokens,
      a shortfall of the pair's asset is burned from the locked position, and
      the asset tokens the locked ones replace are burned. */
  function RemoveCleanup(caller: Address, assetTokenId: TokenId, lockedTokenId: TokenId, lockedNonce: Nonce, received: nat, invested: nat)
    : seq<Effect>
  {
    [Transfer(caller, lockedTokenId, lockedNonce, Min(received, invested))]
    + if received > invested then
        TransferIfPositive(caller, assetTokenId, 0, received - invested) + BurnIfPositive(assetTokenId, invested)
      else if received < invested then
        [Burn(lockedTokenId, lockedNonce, invested - received)] + BurnIfPositive(assetTokenId, received)
      else BurnIfPositive(assetTokenId, received)
  }

  function RemoveLiquidityEffects(s: ProxyState, caller: Address, pair: Address, paymentNonce: Nonce, amount: nat,
                                  firstMin: nat, secondMin: nat, split: RemoveSplit): seq<Effect>
  {
    [PairRemoveLiquidity(pair, split.lpTokenId, amount, firstMin, secondMin)]
    + TransferIfPositive(caller, split.fungibleToken, 0, split.fungibleAmount)
    + RemoveCleanup(caller, s.assetTokenId, s.lockedTokenId, split.lockedNonce, split.assetsReceived, split.invested)
    + [Burn(s.wrappedLpTokenId, paymentNonce, amount)]
  }

  // ---------------------------------------------------------------------
  // reclaimTemporaryFundsProxy

  datatype Reclaimed = Reclaimed(effects: seq<Effect>, funds: Funds)

  /** send_temporary_funds_back for one key. */
  function ReclaimOne(m: Funds, k: FundsKey): Reclaimed
  {
    Reclaimed(TransferIfPositive(k.caller, k.token, k.nonce, FundsOf(m, k)), m - {k})
  }

  /** Both keys of reclaimTemporaryFundsProxy, one after the other. */
  function Reclaim(m: Funds, k1: FundsKey, k2: FundsKey): (r: Reclaimed)
    ensures FundsOf(r.funds, k1) == 0 && FundsOf(r.funds, k2) == 0
    ensures forall j :: j != k1 && j != k2 ==> FundsOf(r.funds, j) == FundsOf(m, j)
    ensures NoZeroEntries(m) ==> NoZeroEntries(r.funds)
  {
    var first := ReclaimOne(m, k1);
    var second := ReclaimOne(first.funds, k2);
    Reclaimed(first.effects + second.effects, second.funds)
  }

  class ProxyPairModule {
    const owner: Address
    const op: GlobalOperation
    /** Storage "intermediated_pairs". */
    var intermediatedPairs: set<Address>
    /** Storage "funds". */
    var temporaryFunds: Funds
    /** The locked-asset token id, read through the locked-asset module. */
    var lockedTokenId: TokenId
    /** The asset token id, read through the asset module. */
    var assetTokenId: TokenId
    /** Storage "wrapped_lp_token_id" and "wrapped_tp_token_nonce". */
    var wrappedLpTokenId: TokenId
    var wrappedLpNonce: Nonce

    ghost predicate Valid()
      reads this
    {
      NoZeroEntries(temporaryFunds)
    }

    function State(): ProxyState
      reads this, op
    {
      ProxyState(op.ongoing, intermediatedPairs, lockedTokenId, assetTokenId, wrappedLpTokenId, temporaryFunds, wrappedLpNonce)
    }

    constructor (owner: Address, op: GlobalOperation, lockedTokenId: TokenId, assetTokenId: TokenId, wrappedLpTokenId: TokenId)
      ensures Valid()
      ensures this.owner == owner && this.op == op && intermediatedPairs == {} && temporaryFunds == map[]
      ensures this.lockedTokenId == lockedTokenId && this.assetTokenId == assetTokenId
      ensures this.wrappedLpTokenId == wrappedLpTokenId && wrappedLpNonce == 0
    {
      this.owner := owner;
      this.op := op;
      intermediatedPairs := {};
      temporaryFunds := map[];
      this.lockedTokenId := lockedTokenId;
      this.assetTokenId := assetTokenId;
      this.wrappedLpTokenId := wrappedLpTokenId;
      wrappedLpNonce := 0;
    }

    /** addPairToIntermediate */
    method AddPairToIntermediate(caller: Address, pair: Address) returns (o: Outcome)
      modifies this
      ensures caller != owner ==> o == Fail("Permission denied") && intermediatedPairs == old(intermediatedPairs)
      ensures caller == owner ==> o == Pass && intermediatedPairs == old(intermediatedPairs) + {pair}
      ensures temporaryFunds == old(temporaryFunds) && wrappedLpNonce == old(wrappedLpNonce)
      ensures lockedTokenId == old(lockedTokenId) && assetTokenId == old(assetTokenId) && wrappedLpTokenId == old(wrappedLpTokenId)
    {
      if caller != owner {
        return Fail("Permission denied");
      }
      intermediatedPairs := intermediatedPairs + {pair};
      o := Pass;
    }

    /** removeIntermediatedPair */
    method RemoveIntermediatedPair(caller: Address, pair: Address) returns (o: Outcome)
      modifies this
      ensures caller != owner ==> o == Fail("Permission denied")
      ensures caller == owner && pair !in old(intermediatedPairs) ==> o == Fail("Not an intermediated pair")
      ensures o.Pass? <==> caller == owner && pair in old(intermediatedPairs)
      ensures o.Pass? ==> intermediatedPairs == old(intermediatedPairs) - {pair}
      ensures o.Fail? ==> intermediatedPairs == old(intermediatedPairs)
      ensures temporaryFunds == old(temporaryFunds) && wrappedLpNonce == old(wrappedLpNonce)
      ensures lockedTokenId == old(lockedTokenId) && assetTokenId == old(assetTokenId) && wrappedLpTokenId == old(wrappedLpTokenId)
    {
      if caller != owner {
        return Fail("Permission denied");
      }
      if pair !in intermediatedPairs {
        return Fail("Not an intermediated pair");
      }
      intermediatedPairs := intermediatedPairs - {pair};
      o := Pass;
    }

    /** acceptEsdtPaymentProxy: escrows a payment of any token. */
    method AcceptEsdtPaymentProxy(caller: Address, pair: Address, token: TokenId, nonce: Nonce, amount: nat) returns (o: Outcome)
      requires Valid()
      modifies this
      ensures Valid()
      ensures op.ongoing ==> o == Fail("Global operation ongoing")
      ensures !op.ongoing && pair !in intermediatedPairs ==> o == Fail("Not an intermediated pair")
      ensures !op.ongoing && pair in intermediatedPairs && amount == 0 ==> o == Fail("Paymend amount cannot be zero")
      ensures o.Pass? <==> !op.ongoing && pair in intermediatedPairs && amount != 0
      ensures o.Pass? ==> temporaryFunds == Credit(old(temporaryFunds), FundsKey(caller, token, nonce), amount)
      ensures o.Fail? ==> temporaryFunds == old(temporaryFunds)
      ensures intermediatedPairs == old(intermediatedPairs) && wrappedLpNonce == old(wrappedLpNonce)
      ensures lockedTokenId == old(lockedTokenId) && assetTokenId == old(assetTokenId) && wrappedLpTokenId == old(wrappedLpTokenId)
    {
      var guard := op.RequireNotOngoing();
      if guard.Fail? {
        return guard;
      }
      if pair !in intermediatedPairs {
        return Fail("Not an intermediated pair");
      }
      if amount == 0 {
        return Fail("Paymend amount cannot be zero");
      }
      IncreaseTemporaryFunds(FundsKey(caller, token, nonce), amount);
      o := Pass;
    }

    /** increase_temporary_funds_amount */
    method IncreaseTemporaryFunds(k: FundsKey, amount: nat)
      modifies this
      ensures temporaryFunds == Credit(old(temporaryFunds), k, amount)
      ensures intermediatedPairs == old(intermediatedPairs) && wrappedLpNonce == old(wrappedLpNonce)
      ensures lockedTokenId == old(lockedTokenId) && assetTokenId == old(assetTokenId) && wrappedLpTokenId == old(wrappedLpTokenId)
    {
      var oldAmount := FundsOf(temporaryFunds, k);
      temporaryFunds := temporaryFunds[k := oldAmount + amount];
    }

    /** send_temporary_funds_back */
    method SendTemporaryFundsBack(k: FundsKey) returns (fx: seq<Effect>)
      modifies this
      ensures Reclaimed(fx, temporaryFunds) == ReclaimOne(old(temporaryFunds), k)
      ensures intermediatedPairs == old(intermediatedPairs) && wrappedLpNonce == old(wrappedLpNonce)
      ensures lockedTokenId == old(lockedTokenId) && assetTokenId == old(assetTokenId) && wrappedLpTokenId == old(wrappedLpTokenId)
    {
      var amount := FundsOf(temporaryFunds, k);
      fx := TransferIfPositive(k.caller, k.token, k.nonce, amount);
      temporaryFunds := temporaryFunds - {k};
    }

    /** reclaimTemporaryFundsProxy: returns the caller's escrow of both
      tokens and clears it. */
    method ReclaimTemporaryFundsProxy(caller: Address, firstToken: TokenId, firstNonce: Nonce, secondToken: TokenId, secondNonce: Nonce)
      returns (o: Outcome, fx: seq<Effect>)
      requires Valid()
      modifies this
      ensures Valid()
      ensures op.ongoing ==> o == Fail("Global operation ongoing") && fx == [] && temporaryFunds == old(temporaryFunds)
      ensures !op.ongoing ==> (o == Pass
        && Reclaimed(fx, temporaryFunds) == Reclaim(old(temporaryFunds), FundsKey(caller, firstToken, firstNonce), FundsKey(caller, secondToken, secondNonce)))
      ensures intermediatedPairs == old(intermediatedPairs) && wrappedLpNonce == old(wrappedLpNonce)
      ensures lockedTokenId == old(lockedTokenId) && assetTokenId == old(assetTokenId) && wrappedLpTokenId == old(wrappedLpTokenId)
    {
      var guard := op.RequireNotOngoing();
      if guard.Fail? {
        return guard, [];
      }
      var first := SendTemporaryFundsBack(FundsKey(caller, firstToken, firstNonce));
      var second := SendTemporaryFundsBack(FundsKey(caller, secondToken, secondNonce));
      fx := first + second;
      o := Pass;
    }

    /** increase_nonce of the wrapped-LP token. */
    method IncreaseNonce() returns (n: Nonce)
      modifies this
      ensures n == old(wrappedLpNonce) + 1 && wrappedLpNonce == n
      ensures temporaryFunds == old(temporaryFunds) && intermediatedPairs == old(intermediatedPairs)
      ensures lockedTokenId == old(lockedTokenId) && assetTokenId == old(assetTokenId) && wrappedLpTokenId == old(wrappedLpTokenId)
    {
      wrappedLpNonce := wrappedLpNonce + 1;
      n := wrappedLpNonce;
    }

    /** create_and_send_wrapped_lp_token: one new batch of the LP amount,
      sent to the caller under the nonce just created. */
    method CreateAndSendWrappedLpToken(caller: Address, lp: TokenAmount, consumed: nat, lockedNonce: Nonce) returns (fx: seq<Effect>)
      modifies this
      ensures fx == [ Create(wrappedLpTokenId, lp.amount, WrappedLp(lp.tokenId, lp.amount, consumed, lockedNonce)),
                      Transfer(caller, wrappedLpTokenId, old(wrappedLpNonce) + 1, lp.amount) ]
      ensures wrappedLpNonce == old(wrappedLpNonce) + 1
      ensures temporaryFunds == old(temporaryFunds) && intermediatedPairs == old(intermediatedPairs)
      ensures lockedTokenId == old(lockedTokenId) && assetTokenId == old(assetTokenId) && wrappedLpTokenId == old(wrappedLpTokenId)
    {
      var create := Create(wrappedLpTokenId, lp.amount, WrappedLp(lp.tokenId, lp.amount, consumed, lockedNonce));
      var n := IncreaseNonce();
      fx := [create, Transfer(caller, wrappedLpTokenId, n, lp.amount)];
    }

    /** addLiquidityProxy, given the pool's answer `res`. */
    method AddLiquidityProxy(caller: Address, a: AddLiquidityArgs, res: PoolResult) returns (o: Outcome, fx: seq<Effect>)
      requires Valid()
      modifies this
      ensures Valid()
      ensures Step(o, fx, temporaryFunds, wrappedLpNonce) == AddLiquidityTransition(old(State()), caller, a, res)
      ensures intermediatedPairs == old(intermediatedPairs)
      ensures lockedTokenId == old(lockedTokenId) && assetTokenId == old(assetTokenId) && wrappedLpTokenId == old(wrappedLpTokenId)
    {
      var s := State();
      o := AddLiquidityCheck(s, caller, a);
      if o.Fail? {
        return o, [];
      }
      var firstAmount := FundsOf(temporaryFunds, FundsKey(caller, a.firstToken, a.firstNonce));
      var secondAmount := FundsOf(temporaryFunds, FundsKey(caller, a.secondToken, a.secondNonce));
      fx := ForwardEffects(a.pair, a.firstToken, a.firstNonce, firstAmount, assetTokenId)
        + ForwardEffects(a.pair, a.secondToken, a.secondNonce, secondAmount, assetTokenId)
        + [PairAddLiquidity(a.pair, [firstAmount, secondAmount, a.firstMin, a.secondMin])];
      if res.firstUsed.tokenId != a.firstToken && res.secondUsed.tokenId != a.secondToken {
        return Fail("Bad token order"), [];
      }
      var rc := Reconcile(temporaryFunds, caller, assetTokenId, a, firstAmount, secondAmount, res);
      if rc.Err? {
        return Fail(rc.msg), [];
      }
      temporaryFunds := rc.value.funds;
      fx := fx + BurnIfPositive(assetTokenId, rc.value.unusedMinted);
      var sent := CreateAndSendWrappedLpToken(caller, res.lp, rc.value.consumed, rc.value.lockedNonce);
      fx := fx + sent;
    }

    /** removeLiquidityProxy: changes no storage of its own. */
    method RemoveLiquidityProxy(caller: Address, pair: Address, paymentToken: TokenId, paymentNonce: Nonce, amount: nat,
                                firstMin: nat, secondMin: nat, pairLpToken: TokenId, attrs: Attributes, position: (TokenAmount, TokenAmount))
      returns (o: Outcome, fx: seq<Effect>)
      ensures var plan := RemoveLiquidityPlan(State(), pair, paymentToken, paymentNonce, amount, pairLpToken, attrs, position);
        && (plan.Err? ==> o == Fail(plan.msg) && fx == [])
        && (plan.Ok? ==> o == Pass && fx == RemoveLiquidityEffects(State(), caller, pair, paymentNonce, amount, firstMin, secondMin, plan.value))
    {
      var plan := RemoveLiquidityPlan(State(), pair, paymentToken, paymentNonce, amount, pairLpToken, attrs, position);
      if plan.Err? {
        return Fail(plan.msg), [];
      }
      var split := plan.value;
      fx := [PairRemoveLiquidity(pair, split.lpTokenId, amount, firstMin, secondMin)];
      fx := fx + TransferIfPositive(caller, split.fungibleToken, 0, split.fungibleAmount);
      fx := fx + RemoveCleanup(caller, assetTokenId, lockedTokenId, split.lockedNonce, split.assetsReceived, split.invested);
      fx := fx + [Burn(wrappedLpTokenId, paymentNonce, amount)];
      o := Pass;
    }

    /** getTemporaryFunds */
    function GetTemporaryFunds(caller: Address, token: TokenId, nonce: Nonce): nat
      reads this
    {
      FundsOf(temporaryFunds, FundsKey(caller, token, nonce))
    }
  }

  // ---------------------------------------------------------------------
  // Lemmas

  lemma FloorDivBounds(x: nat, d: nat)
    requires d > 0
    ensures (x / d) * d <= x < (x / d + 1) * d
  {
  }

  /** When both legs' keys differ (their nonces do, by the guard), the
      locked leg's escrow drops by the consumed quantity and the other key
      by the amount the pair used. */
  lemma {:induction false} ReconcileDebitsUsed(m: Funds, caller: Address, assetTokenId: TokenId, a: AddLiquidityArgs, firstAmount: nat, secondAmount: nat, res: PoolResult)
    requires a.firstNonce != a.secondNonce
    requires Reconcile(m, caller, assetTokenId, a, firstAmount, secondAmount, res).Ok?
    ensures var rc := Reconcile(m, caller, assetTokenId, a, firstAmount, secondAmount, res).value;
      var k1 := FundsKey(caller, if res.firstUsed.tokenId == assetTokenId then a.firstToken else res.firstUsed.tokenId, a.firstNonce);
      var k2 := FundsKey(caller, if res.firstUsed.tokenId == assetTokenId then res.secondUsed.tokenId else a.secondToken, a.secondNonce);
      && FundsOf(rc.funds, k1) == FundsOf(m, k1) - res.firstUsed.amount
      && FundsOf(rc.funds, k2) == FundsOf(m, k2) - res.secondUsed.amount
      && forall j :: j != k1 && j != k2 ==> FundsOf(rc.funds, j) == FundsOf(m, j)
  {
    var k1 := FundsKey(caller, if res.firstUsed.tokenId == assetTokenId then a.firstToken else res.firstUsed.tokenId, a.firstNonce);
    var k2 := FundsKey(caller, if res.firstUsed.tokenId == assetTokenId then res.secondUsed.tokenId else a.secondToken, a.secondNonce);
    assert k1 != k2;
    var d1 := Debit(m, k1, res.firstUsed.amount);
    assert d1.Ok?;
    var d2 := Debit(d1.value, k2, res.secondUsed.amount);
    assert d2.Ok?;
  }

  /** A successful addLiquidityProxy raises the wrapped-LP nonce by one,
      creates and sends exactly the LP amount of wrapped LP under that nonce,
      records the consumed locked quantity in the attributes, burns the rest
      of the minted asset, and calls the pair with the amounts in the order
      written. */
  lemma AddLiquidityOutcome(s: ProxyState, caller: Address, a: AddLiquidityArgs, res: PoolResult)
    requires AddLiquidityTransition(s, caller, a, res).outcome.Pass?
    ensures var step := AddLiquidityTransition(s, caller, a, res);
      var firstAmount := FundsOf(s.funds, FundsKey(caller, a.firstToken, a.firstNonce));
      var secondAmount := FundsOf(s.funds, FundsKey(caller, a.secondToken, a.secondNonce));
      var assetFirst := res.firstUsed.tokenId == s.assetTokenId;
      var consumed := if assetFirst then res.firstUsed.amount else res.secondUsed.amount;
      && AddLiquidityCheck(s, caller, a).Pass?
      && step.nonce == s.nonce + 1
      && PairAddLiquidity(a.pair, [firstAmount, secondAmount, a.firstMin, a.secondMin]) in step.effects
      && step.effects[|step.effects| - 2] == Create(s.wrappedLpTokenId, res.lp.amount,
           WrappedLp(res.lp.tokenId, res.lp.amount, consumed, if assetFirst then a.firstNonce else a.secondNonce))
      && step.effects[|step.effects| - 1] == Transfer(caller, s.wrappedLpTokenId, s.nonce + 1, res.lp.amount)
      && consumed <= (if assetFirst then firstAmount else secondAmount)
      && (NoZeroEntries(s.funds) ==> NoZeroEntries(step.funds))
  {
  }

  /** What removeLiquidityProxy pays and burns: the locked tokens and the
      plain asset sent total what the pair returned of the asset, the asset
      burned is the part the locked tokens replace, and the locked tokens
      sent or burned account for the whole invested quantity. */
  lemma {:induction false} RemoveCleanupConserves(caller: Address, assetTokenId: TokenId, lockedTokenId: TokenId, lockedNonce: Nonce, received: nat, invested: nat)
    requires assetTokenId != lockedTokenId
    ensures var fx := RemoveCleanup(caller, assetTokenId, lockedTokenId, lockedNonce, received, invested);
      && Sent(fx, caller, lockedTokenId) == Min(received, invested)
      && Sent(fx, caller, lockedTokenId) + Sent(fx, caller, assetTokenId) == received
      && Burned(fx, assetTokenId) == Min(received, invested)
      && Sent(fx, caller, lockedTokenId) + Burned(fx, lockedTokenId) == invested
  {
    var head := [Transfer(caller, lockedTokenId, lockedNonce, Min(received, invested))];
    var tail := if received > invested then
        TransferIfPositive(caller, assetTokenId, 0, received - invested) + BurnIfPositive(assetTokenId, invested)
      else if received < invested then
        [Burn(lockedTokenId, lockedNonce, invested - received)] + BurnIfPositive(assetTokenId, received)
      else BurnIfPositive(assetTokenId, received);
    TotalsAppend(head, tail, caller, lockedTokenId);
    TotalsAppend(head, tail, caller, assetTokenId);
    TotalsAppend([], head, caller, lockedTokenId);
    TotalsAppend([], head, caller, assetTokenId);
    assert head[1..] == [];
    if received > invested {
      var t1 := TransferIfPositive(caller, assetTokenId, 0, received - invested);
      var t2 := BurnIfPositive(assetTokenId, invested);
      TotalsAppend(t1, t2, caller, lockedTokenId);
      TotalsAppend(t1, t2, caller, assetTokenId);
      if invested > 0 {
        assert t2[1..] == [];
      }
      assert t1 == [Transfer(caller, assetTokenId, 0, received - invested)] && t1[1..] == [];
    } else if received < invested {
      var t1 := [Burn(lockedTokenId, lockedNonce, invested - received)];
      var t2 := BurnIfPositive(assetTokenId, received);
      TotalsAppend(t1, t2, caller, lockedTokenId);
      TotalsAppend(t1, t2, caller, assetTokenId);
      assert t1[1..] == [];
      if received > 0 {
        assert t2[1..] == [];
      }
    } else {
      if received > 0 {
        assert tail[1..] == [];
      }
    }
  }

  /** Reclaiming returns each key's full escrow to the caller: for every
      token, what is sent is the escrow of the first key plus, when it is a
      different key, that of the second. */
  lemma {:induction false} ReclaimReturnsEscrow(m: Funds, caller: Address, k1: FundsKey, k2: FundsKey, token: TokenId)
    requires k1.caller == caller && k2.caller == caller
    ensures var r := Reclaim(m, k1, k2);
      Sent(r.effects, caller, token)
        == (if k1.token == token then FundsOf(m, k1) else 0)
         + (if k2 != k1 && k2.token == token then FundsOf(m, k2) else 0)
  {
    var first := ReclaimOne(m, k1);
    var second := ReclaimOne(first.funds, k2);
    TotalsAppend(first.effects, second.effects, caller, token);
    SentOne(caller, k1.token, k1.nonce, FundsOf(m, k1), token);
    SentOne(caller, k2.token, k2.nonce, FundsOf(first.funds, k2), token);
    if k2 != k1 {
      assert FundsOf(first.funds, k2) == FundsOf(m, k2);
    } else {
      assert FundsOf(first.funds, k2) == 0;
    }
  }

  lemma SentOne(caller: Address, t: TokenId, nonce: Nonce, amount: nat, token: TokenId)
    ensures Sent(TransferIfPositive(caller, t, nonce, amount), caller, token) == if t == token then amount else 0
  {
    if amount > 0 {
      assert TransferIfPositive(caller, t, nonce, amount)[1..] == [];
    }
  }
}
