/** Shared data model of the contracts: the records of the distrib-common crate,
    the error-carrying results of the endpoints, and the host effects (mints,
    burns, transfers, token creations and calls to a pair contract) that an
    endpoint issues in order. */
module Common {

  /** An account address; only compared for equality. */
  type Address = nat

  /** An ESDT token identifier; the empty identifier is what an unset
      token-id storage slot reads as. */
  type TokenId = string

  const EmptyToken: TokenId := ""

  /** Token nonce 0 marks a fungible token, any other nonce one SFT/NFT batch. */
  type Nonce = nat

  /** Abort messages of a Rust panic: BigUint or u64 subtraction below zero,
      and indexing an empty vector. */
  const Underflow := "panic: subtraction underflow"
  const IndexOutOfBounds := "panic: index out of bounds"
  const DivisionByZero := "panic: division by zero"

  /** SCResult<T>: a value, or the message the transaction aborts with. */
  datatype Result<+T> = Ok(value: T) | Err(msg: string)

  /** SCResult<()>. */
  datatype Outcome = Pass | Fail(msg: string)

  /** UnlockMilestone {unlock_epoch, unlock_percent}. */
  datatype Milestone = Milestone(epoch: nat, percent: nat)

  /** UserAssetKey {user_address, spread_epoch, locked_asset}. */
  datatype UserAssetKey = UserAssetKey(user: Address, spreadEpoch: nat, locked: bool)

  /** CommunityDistribution {total_amount, spread_epoch, after_planning_amount, unlock_milestones}. */
  datatype CommunityDistribution = CommunityDistribution(
    totalAmount: nat,
    spreadEpoch: nat,
    afterPlanningAmount: nat,
    milestones: seq<Milestone>)

  /** LockedTokenAttributes {unlock_milestones}. */
  datatype LockedTokenAttributes = LockedTokenAttributes(milestones: seq<Milestone>)

  /** TokenAmountPair {token_id, amount}, as returned by a pair contract. */
  datatype TokenAmount = TokenAmount(tokenId: TokenId, amount: nat)

  /** The attributes attached to a created SFT/NFT batch. */
  datatype Attributes =
    | Locked(locked: LockedTokenAttributes)
      // WrappedLpTokenAttributes of the common proxy module
    | WrappedLp(lpTokenId: TokenId, lpTokenTotalAmount: nat, lockedAssetsInvested: nat, lockedAssetsNonce: Nonce)
      // WrappedLpTokenAttributes of the distribution contract's proxy module
    | WrappedLpWithMilestones(lpId: TokenId, invested: nat, lockedMilestones: seq<Milestone>)
      // NftAttributes of the dex-rewards-lock contract
    | Deposit(originalAddress: Address, depositEpoch: nat)

  /** One host primitive or cross-contract call issued by an endpoint. */
  datatype Effect =
    | Mint(token: TokenId, amount: nat)
    | Burn(token: TokenId, nonce: Nonce, amount: nat)
    | Transfer(to: Address, token: TokenId, nonce: Nonce, amount: nat)
    | Create(token: TokenId, amount: nat, attributes: Attributes)
    | AddQuantity(token: TokenId, nonce: Nonce, amount: nat)
    | ForwardToPair(pair: Address, token: TokenId, amount: nat)
    | PairAddLiquidity(pair: Address, args: seq<nat>)
    | PairRemoveLiquidity(pair: Address, lpToken: TokenId, liquidity: nat, firstMin: nat, secondMin: nat)
    | PairReclaim(pair: Address)
    | BurnBalance(token: TokenId)

  /** asset::send_tokens and the direct_transfer_* helpers skip zero amounts. */
  function TransferIfPositive(to: Address, token: TokenId, nonce: Nonce, amount: nat): (fx: seq<Effect>)
    ensures amount == 0 <==> fx == []
    ensures amount > 0 ==> fx == [Transfer(to, token, nonce, amount)]
  {
    if amount > 0 then [Transfer(to, token, nonce, amount)] else []
  }

  /** asset::burn and asset::mint_tokens skip zero amounts. */
  function BurnIfPositive(token: TokenId, amount: nat): (fx: seq<Effect>)
    ensures amount == 0 <==> fx == []
    ensures amount > 0 ==> fx == [Burn(token, 0, amount)]
  {
    if amount > 0 then [Burn(token, 0, amount)] else []
  }

  function MintIfPositive(token: TokenId, amount: nat): (fx: seq<Effect>)
    ensures amount == 0 <==> fx == []
    ensures amount > 0 ==> fx == [Mint(token, amount)]
  {
    if amount > 0 then [Mint(token, amount)] else []
  }

  function Min(a: nat, b: nat): (m: nat)
    ensures m <= a && m <= b && (m == a || m == b)
  {
    if a <= b then a else b
  }

  /** Quantity of `token` one effect mints, burns, brings into existence as
      an SFT/NFT batch (by creation or added quantity), or transfers to `to`. */
  function MintOf(e: Effect, token: TokenId): nat
  {
    if e.Mint? && e.token == token then e.amount else 0
  }

  function BurnOf(e: Effect, token: TokenId): nat
  {
    if e.Burn? && e.token == token then e.amount else 0
  }

  function CreateOf(e: Effect, token: TokenId): nat
  {
    if (e.Create? || e.AddQuantity?) && e.token == token then e.amount else 0
  }

  function SendOf(e: Effect, to: Address, token: TokenId): nat
  {
    if e.Transfer? && e.to == to && e.token == token then e.amount else 0
  }

  /** The same quantities summed over an effect log. */
  function Minted(fx: seq<Effect>, token: TokenId): nat
  {
    if fx == [] then 0 else MintOf(fx[0], token) + Minted(fx[1..], token)
  }

  function Burned(fx: seq<Effect>, token: TokenId): nat
  {
    if fx == [] then 0 else BurnOf(fx[0], token) + Burned(fx[1..], token)
  }

  function Created(fx: seq<Effect>, token: TokenId): nat
  {
    if fx == [] then 0 else CreateOf(fx[0], token) + Created(fx[1..], token)
  }

  function Sent(fx: seq<Effect>, to: Address, token: TokenId): nat
  {
    if fx == [] then 0 else SendOf(fx[0], to, token) + Sent(fx[1..], to, token)
  }

  /** Appending one effect adds that effect's quantities. */
  lemma TotalsSnoc(a: seq<Effect>, e: Effect, to: Address, token: TokenId)
    ensures Minted(a + [e], token) == Minted(a, token) + MintOf(e, token)
    ensures Burned(a + [e], token) == Burned(a, token) + BurnOf(e, token)
    ensures Created(a + [e], token) == Created(a, token) + CreateOf(e, token)
    ensures Sent(a + [e], to, token) == Sent(a, to, token) + SendOf(e, to, token)
  {
    TotalsAppend(a, [e], to, token);
    assert [e][1..] == [];
  }

  lemma {:induction false} TotalsAppend(a: seq<Effect>, b: seq<Effect>, to: Address, token: TokenId)
    ensures Minted(a + b, token) == Minted(a, token) + Minted(b, token)
    ensures Burned(a + b, token) == Burned(a, token) + Burned(b, token)
    ensures Created(a + b, token) == Created(a, token) + Created(b, token)
    ensures Sent(a + b, to, token) == Sent(a, to, token) + Sent(b, to, token)
  {
    if a == [] {
      assert a + b == b;
    } else {
      assert (a + b)[0] == a[0];
      assert (a + b)[1..] == a[1..] + b;
      TotalsAppend(a[1..], b, to, token);
    }
  }
}
