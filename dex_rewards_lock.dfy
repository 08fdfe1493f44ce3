/** The DEX rewards-lock contract of sc-dex-rewards-lock/src/lib.rs: a
    user deposits MEX, the deposit is recorded per (address, epoch), and
    the user receives one NFT whose attributes name the depositor and the
    epoch, to reclaim the deposit later. A view lists a user's non-zero
    deposits over an inclusive range of epochs.

    The NFT nonce the host assigns on creation is modelled as a counter of
    the NFTs created; whether the final NFT transfer succeeds is a host
    answer, given as a parameter. */
module DexRewardsLock {
  import opened Common
  import opened EpochRewards

  /** MIN_PRECISION */
  const MinPrecision: nat := 100
  /** NFT_AMOUNT: one NFT per deposit. */
  const NftAmount: nat := 1

  /** The key of storage "mexDeposit". */
  datatype DepositKey = DepositKey(user: Address, epoch: nat)

  type Deposits = map<DepositKey, nat>

  /** mexDeposit(user, epoch), zero when never written. */
  function DepositOf(m: Deposits, user: Address, epoch: nat): nat
  {
    if DepositKey(user, epoch) in m then m[DepositKey(user, epoch)] else 0
  }

  /** The deposit map after `amount` more is deposited by `user` at
      `epoch`. */
  function Deposited(m: Deposits, user: Address, epoch: nat, amount: nat): (r: Deposits)
    ensures DepositOf(r, user, epoch) == DepositOf(m, user, epoch) + amount
    ensures forall u: Address, e: nat :: (u, e) != (user, epoch) ==> DepositOf(r, u, e) == DepositOf(m, u, e)
  {
    m[DepositKey(user, epoch) := DepositOf(m, user, epoch) + amount]
  }

  /** getAllDepositsForAddress: the (epoch, amount) pairs of the user's
      non-zero deposits, from `lo` to `hi` inclusive. */
  function DepositsInRange(m: Deposits, user: Address, lo: nat, hi: nat): (r: seq<(nat, nat)>)
    ensures lo > hi ==> r == []
    decreases if lo <= hi then hi - lo + 1 else 0
  {
    if lo > hi then []
    else
      var d := DepositOf(m, user, lo);
      (if d > 0 then [(lo, d)] else []) + DepositsInRange(m, user, lo + 1, hi)
  }

  /** The guards of lockMexTokens, in order. */
  function LockCheck(nftId: TokenId, mexTokenId: TokenId, token: TokenId, amount: nat): (o: Outcome)
    ensures o.Pass? <==> nftId != EmptyToken && token == mexTokenId && amount > 0
    ensures nftId == EmptyToken ==> o == Fail("Nft not issued yet")
    ensures nftId != EmptyToken && token != mexTokenId ==> o == Fail("Wrong token sent as payment")
    ensures nftId != EmptyToken && token == mexTokenId && amount == 0 ==> o == Fail("Must locked more than 0 tokens")
  {
    if nftId == EmptyToken then Fail("Nft not issued yet")
    else if token != mexTokenId then Fail("Wrong token sent as payment")
    else if amount == 0 then Fail("Must locked more than 0 tokens")
    else Pass
  }

  class DexRewardsLockContract {
    const owner: Address
    /** Storage "mexTokenId". */
    const mexTokenId: TokenId
    /** Storage "percentagePrecision". */
    const precision: nat
    const table: RewardTable
    /** Storage "nftId". */
    var nftId: TokenId
    /** Storage "mexDeposit". */
    var deposits: Deposits
    /** The nonce of the last NFT the host created for this contract. */
    var nftNonce: Nonce

    constructor (owner: Address, mexTokenId: TokenId, precision: nat, pairs: seq<(nat, nat)>)
      ensures this.owner == owner && this.mexTokenId == mexTokenId && this.precision == precision
      ensures fresh(table) && table.rewards == RewardsFromPairs(pairs)
      ensures nftId == EmptyToken && deposits == map[] && nftNonce == 0
    {
      this.owner := owner;
      this.mexTokenId := mexTokenId;
      this.precision := precision;
      table := new RewardTable(pairs);
      nftId := EmptyToken;
      deposits := map[];
      nftNonce := 0;
    }

    /** init: a valid token identifier (a host check, given as
      `tokenValid`), a precision of at least 100 and at least one
      (epoch, percentage) pair. */
    static method Init(owner: Address, tokenValid: bool, mexTokenId: TokenId, precision: nat, pairs: seq<(nat, nat)>)
      returns (o: Outcome, c: DexRewardsLockContract?)
      ensures o.Pass? <==> tokenValid && precision >= MinPrecision && pairs != []
      ensures !tokenValid ==> o == Fail("Invalid token provided")
      ensures tokenValid && precision < MinPrecision ==> o == Fail("Precision too low")
      ensures tokenValid && precision >= MinPrecision && pairs == [] ==> o == Fail("Must provide at least one epoch-reward pair")
      ensures o.Fail? ==> c == null
      ensures o.Pass? ==> (c != null && fresh(c) && fresh(c.table) && c.owner == owner && c.mexTokenId == mexTokenId
        && c.precision == precision && c.table.rewards == RewardsFromPairs(pairs)
        && c.nftId == EmptyToken && c.deposits == map[])
    {
      if !tokenValid {
        return Fail("Invalid token provided"), null;
      }
      if precision < MinPrecision {
        return Fail("Precision too low"), null;
      }
      if pairs == [] {
        return Fail("Must provide at least one epoch-reward pair"), null;
      }
      c := new DexRewardsLockContract(owner, mexTokenId, precision, pairs);
      o := Pass;
    }

    /** issueNft: owner-only; the asynchronous issue is a host call. */
    method IssueNft(caller: Address) returns (o: Outcome)
      ensures o.Pass? <==> caller == owner
      ensures caller != owner ==> o == Fail("Only owner may call this function")
    {
      if caller != owner {
        return Fail("Only owner may call this function");
      }
      o := Pass;
    }

    /** issue_nft_callback: a successful issue stores the NFT id; a failed
      one returns the issue payment to the owner. */
    method IssueNftCallback(result: Result<TokenId>, paymentToken: TokenId, payment: nat) returns (fx: seq<Effect>)
      modifies this
      ensures result.Ok? ==> nftId == result.value && fx == []
      ensures result.Err? ==> nftId == old(nftId) && fx == [Transfer(owner, paymentToken, 0, payment)]
      ensures deposits == old(deposits) && nftNonce == old(nftNonce)
    {
      if result.Ok? {
        nftId := result.value;
        fx := [];
      } else {
        fx := [Transfer(owner, paymentToken, 0, payment)];
      }
    }

    /** lockMexTokens: records the deposit for (caller, now) and sends the
      caller one NFT naming it; if the host refuses the NFT transfer the
      call aborts and nothing changes. */
    method LockMexTokens(caller: Address, token: TokenId, amount: nat, now: nat, sendOk: bool) returns (o: Outcome, fx: seq<Effect>)
      modifies this
      ensures var c := LockCheck(nftId, mexTokenId, token, amount);
        && (c.Fail? ==> o == c)
        && (c.Pass? && !sendOk ==> o == Fail("Failed sending NFT to caller"))
        && (c.Pass? && sendOk ==> o == Pass)
      ensures o.Fail? ==> fx == [] && deposits == old(deposits) && nftNonce == old(nftNonce)
      ensures o.Pass? ==> (deposits == Deposited(old(deposits), caller, now, amount)
        && nftNonce == old(nftNonce) + 1
        && fx == [Create(nftId, NftAmount, Deposit(caller, now)), Transfer(caller, nftId, nftNonce, NftAmount)])
      ensures nftId == old(nftId)
    {
      o := LockCheck(nftId, mexTokenId, token, amount);
      if o.Fail? {
        return o, [];
      }
      if !sendOk {
        return Fail("Failed sending NFT to caller"), [];
      }
      var lockedForCurrentEpoch := DepositOf(deposits, caller, now);
      lockedForCurrentEpoch := lockedForCurrentEpoch + amount;
      deposits := deposits[DepositKey(caller, now) := lockedForCurrentEpoch];
      nftNonce := nftNonce + 1;
      fx := [Create(nftId, NftAmount, Deposit(caller, now)), Transfer(caller, nftId, nftNonce, NftAmount)];
    }

    /** getAllDepositsForAddress: one pass over the epochs of the range. */
    method GetAllDepositsForAddress(lo: nat, hi: nat, address: Address) returns (r: seq<(nat, nat)>)
      ensures r == DepositsInRange(deposits, address, lo, hi)
    {
      r := [];
      if lo > hi {
        return;
      }
      var epoch := lo;
      while epoch <= hi
        invariant lo <= epoch <= hi + 1
        invariant r + DepositsInRange(deposits, address, epoch, hi) == DepositsInRange(deposits, address, lo, hi)
        decreases hi + 1 - epoch
      {
        var amount := DepositOf(deposits, address, epoch);
        if amount > 0 {
          r := r + [(epoch, amount)];
        }
        epoch := epoch + 1;
      }
    }
  }

  // ---------------------------------------------------------------------
  // Lemmas

  /** The listing holds only non-zero deposits of the range, each with its
      stored amount, in strictly ascending epoch order. */
  lemma {:induction false} ListingIsSound(m: Deposits, user: Address, lo: nat, hi: nat)
    ensures forall i :: 0 <= i < |DepositsInRange(m, user, lo, hi)| ==>
      var entry := DepositsInRange(m, user, lo, hi)[i];
      lo <= entry.0 <= hi && entry.1 == DepositOf(m, user, entry.0) && entry.1 > 0
    ensures forall i, j :: 0 <= i < j < |DepositsInRange(m, user, lo, hi)| ==>
      DepositsInRange(m, user, lo, hi)[i].0 < DepositsInRange(m, user, lo, hi)[j].0
    decreases if lo <= hi then hi - lo + 1 else 0
  {
    if lo <= hi {
      ListingIsSound(m, user, lo + 1, hi);
      var d := DepositOf(m, user, lo);
      var head: seq<(nat, nat)> := if d > 0 then [(lo, d)] else [];
      var tail := DepositsInRange(m, user, lo + 1, hi);
      var r := DepositsInRange(m, user, lo, hi);
      assert r == head + tail;
      forall i | 0 <= i < |r|
        ensures lo <= r[i].0 <= hi && r[i].1 == DepositOf(m, user, r[i].0) && r[i].1 > 0
      {
        if i >= |head| {
          assert r[i] == tail[i - |head|];
        } else {
          assert r[i] == (lo, d);
        }
      }
      forall i, j | 0 <= i < j < |r|
        ensures r[i].0 < r[j].0
      {
        assert r[j] == tail[j - |head|];
        if i >= |head| {
          assert r[i] == tail[i - |head|];
        } else {
          assert r[i] == (lo, d);
        }
      }
    }
  }

  /** Every non-zero deposit of the range appears in the listing. */
  lemma {:induction false} ListingIsComplete(m: Deposits, user: Address, lo: nat, hi: nat, e: nat)
    requires lo <= e <= hi && DepositOf(m, user, e) > 0
    ensures (e, DepositOf(m, user, e)) in DepositsInRange(m, user, lo, hi)
    decreases hi - lo
  {
    if e > lo {
      ListingIsComplete(m, user, lo + 1, hi, e);
    }
  }

  /** A deposit made at epoch `now` shows in any listing whose range holds
      `now`, with the accumulated amount. */
  lemma LockIsListed(m: Deposits, user: Address, now: nat, amount: nat, lo: nat, hi: nat)
    requires amount > 0 && lo <= now <= hi
    ensures (now, DepositOf(m, user, now) + amount) in DepositsInRange(Deposited(m, user, now, amount), user, lo, hi)
  {
    ListingIsComplete(Deposited(m, user, now, amount), user, lo, hi, now);
  }
}
