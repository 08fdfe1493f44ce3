/** The locked-rewards contract of sc-locked-rewards/src/lib.rs: a user
    locks MEX for a number of epochs and receives, as a locked-asset
    position that unlocks in full once the lock time has passed, the
    amount plus a bonus. The bonus percentage is that of the greatest
    reward epoch strictly below the lock time.

    The locked position is made by LockedAsset's create-and-send; the
    reward table is EpochRewards' RewardTable. */
module LockedRewards {
  import opened Common
  import opened Schedule
  import opened LockedAsset
  import opened EpochRewards

  const PercentageTotal: nat := 100

  /** The greatest reward epoch strictly below `waited`, or 0 when there is
      none. */
  function LatestRewardEpoch(keys: set<nat>, waited: nat): (e: nat)
    ensures e == 0 || (e in keys && e < waited)
    ensures forall k :: k in keys && k < waited ==> k <= e
    decreases waited
  {
    if waited == 0 then 0
    else if waited - 1 in keys then waited - 1
    else LatestRewardEpoch(keys, waited - 1)
  }

  /** The only value with both properties of LatestRewardEpoch is that
      value. */
  lemma LatestIsUnique(keys: set<nat>, waited: nat, e: nat)
    requires e == 0 || (e in keys && e < waited)
    requires forall k :: k in keys && k < waited ==> k <= e
    ensures e == LatestRewardEpoch(keys, waited)
  {
  }

  /** computeEarnings: the interest of the latest reward epoch below
      `waited`, applied to `deposit` and rounded down. */
  function Earnings(rewards: Rewards, deposit: nat, waited: nat): (r: nat)
    ensures var pct := RewardFor(rewards, LatestRewardEpoch(rewards.Keys, waited));
      r * PercentageTotal <= deposit * pct < r * PercentageTotal + PercentageTotal
  {
    deposit * RewardFor(rewards, LatestRewardEpoch(rewards.Keys, waited)) / PercentageTotal
  }

  /** What an accepted lockMexTokens gives. */
  datatype LockPlan = LockPlan(percentage: nat, bonus: nat, lockedAmount: nat, schedule: seq<Milestone>)

  /** The checks and arithmetic of lockMexTokens, in the source's order. */
  function PlanLock(rewards: Rewards, lockedTokenId: TokenId, assetTokenId: TokenId, token: TokenId, amount: nat, lockTime: nat, now: nat)
    : (r: Result<LockPlan>)
    ensures lockedTokenId == EmptyToken ==> r == Err("Nft not issued yet")
    ensures lockedTokenId != EmptyToken && token != assetTokenId ==> r == Err("Wrong token sent as payment")
    ensures lockedTokenId != EmptyToken && token == assetTokenId && amount == 0 ==> r == Err("Must lock more than 0 tokens")
    ensures r.Ok? ==> (lockedTokenId != EmptyToken && token == assetTokenId && amount > 0
      && LatestRewardEpoch(rewards.Keys, lockTime) in rewards
      && r.value.percentage == rewards[LatestRewardEpoch(rewards.Keys, lockTime)]
      && r.value.bonus * PercentageTotal <= amount * r.value.percentage < r.value.bonus * PercentageTotal + PercentageTotal
      && r.value.lockedAmount == amount + r.value.bonus
      && r.value.schedule == [Milestone(now + lockTime, PercentageTotal)])
  {
    if lockedTokenId == EmptyToken then Err("Nft not issued yet")
    else if token != assetTokenId then Err("Wrong token sent as payment")
    else if amount == 0 then Err("Must lock more than 0 tokens")
    else
      var latest := LatestRewardEpoch(rewards.Keys, lockTime);
      if latest !in rewards then Err("Couldn't find percentage reward")
      else
        var pct := rewards[latest];
        var bonus := amount * pct / PercentageTotal;
        Ok(LockPlan(pct, bonus, amount + bonus, [Milestone(now + lockTime, PercentageTotal)]))
  }

  /** One entry of getAllLockRewardOptions. */
  datatype LockRewardOption = LockRewardOption(numEpochsToLock: nat, interest: nat)

  /** find_latest_reward_epoch: one pass over the reward epochs, in
      whatever order the map yields them, keeping the greatest one below
      `waited`. */
  method FindLatestRewardEpoch(rewards: Rewards, waited: nat) returns (e: nat)
    ensures e == LatestRewardEpoch(rewards.Keys, waited)
  {
    e := 0;
    var rest := rewards.Keys;
    var seen: set<nat> := {};
    while rest != {}
      invariant rest + seen == rewards.Keys
      invariant e == 0 || (e in seen && e < waited)
      invariant forall k :: k in seen && k < waited ==> k <= e
      decreases |rest|
    {
      var k :| k in rest;
      if waited > k && e < k {
        e := k;
      }
      rest := rest - {k};
      seen := seen + {k};
    }
    LatestIsUnique(rewards.Keys, waited, e);
  }

  /** getAllLockRewardOptions: every reward epoch once, with its
      percentage. */
  method GetAllLockRewardOptions(rewards: Rewards) returns (opts: seq<LockRewardOption>)
    ensures |opts| == |rewards.Keys|
    ensures forall i :: 0 <= i < |opts| ==> opts[i].numEpochsToLock in rewards && rewards[opts[i].numEpochsToLock] == opts[i].interest
    ensures forall i, j :: 0 <= i < j < |opts| ==> opts[i].numEpochsToLock != opts[j].numEpochsToLock
    ensures forall e :: e in rewards ==> exists i :: 0 <= i < |opts| && opts[i].numEpochsToLock == e
  {
    opts := [];
    var rest := rewards.Keys;
    while rest != {}
      invariant rest <= rewards.Keys
      invariant |opts| + |rest| == |rewards.Keys|
      invariant forall i :: 0 <= i < |opts| ==> (opts[i].numEpochsToLock in rewards && opts[i].numEpochsToLock !in rest
        && rewards[opts[i].numEpochsToLock] == opts[i].interest)
      invariant forall i, j :: 0 <= i < j < |opts| ==> opts[i].numEpochsToLock != opts[j].numEpochsToLock
      invariant forall e :: e in rewards && e !in rest ==> exists i :: 0 <= i < |opts| && opts[i].numEpochsToLock == e
      decreases |rest|
    {
      var k :| k in rest;
      ghost var prev := opts;
      opts := opts + [LockRewardOption(k, rewards[k])];
      forall e | e in rewards && e !in rest - {k}
        ensures exists i :: 0 <= i < |opts| && opts[i].numEpochsToLock == e
      {
        if e == k {
          assert opts[|opts| - 1].numEpochsToLock == e;
        } else {
          var i :| 0 <= i < |prev| && prev[i].numEpochsToLock == e;
          assert opts[i] == prev[i];
        }
      }
      rest := rest - {k};
    }
  }

  class LockedRewardsContract {
    const owner: Address
    /** The locked-asset engine: token ids and last created nonce. */
    const assets: LockedAssetModule
    const table: RewardTable

    constructor (owner: Address, mexTokenId: TokenId, pairs: seq<(nat, nat)>)
      ensures this.owner == owner && fresh(assets) && fresh(table)
      ensures assets.assetTokenId == mexTokenId && assets.lockedTokenId == EmptyToken && assets.nonce == 0
      ensures table.rewards == RewardsFromPairs(pairs)
    {
      this.owner := owner;
      assets := new LockedAssetModule(EmptyToken, mexTokenId);
      table := new RewardTable(pairs);
    }

    /** init: a valid token identifier (a host check, given as
      `tokenValid`) and at least one (epoch, percentage) pair. */
    static method Init(owner: Address, tokenValid: bool, mexTokenId: TokenId, pairs: seq<(nat, nat)>)
      returns (o: Outcome, c: LockedRewardsContract?)
      ensures o.Pass? <==> tokenValid && pairs != []
      ensures !tokenValid ==> o == Fail("Invalid token provided")
      ensures tokenValid && pairs == [] ==> o == Fail("Must provide at least one epoch-reward pair")
      ensures o.Fail? ==> c == null
      ensures o.Pass? ==> (c != null && fresh(c) && fresh(c.assets) && fresh(c.table) && c.owner == owner
        && c.assets.assetTokenId == mexTokenId && c.assets.lockedTokenId == EmptyToken
        && c.table.rewards == RewardsFromPairs(pairs))
    {
      if !tokenValid {
        return Fail("Invalid token provided"), null;
      }
      if pairs == [] {
        return Fail("Must provide at least one epoch-reward pair"), null;
      }
      c := new LockedRewardsContract(owner, mexTokenId, pairs);
      o := Pass;
    }

    /** lockMexTokens: pays `amount` of MEX and receives a locked position
      of amount plus bonus, fully unlockable after `lockTime` epochs; the
      MEX paid is burned. */
    method LockMexTokens(caller: Address, lockTime: nat, token: TokenId, amount: nat, now: nat) returns (o: Outcome, fx: seq<Effect>)
      modifies assets
      ensures var p := PlanLock(table.rewards, assets.lockedTokenId, assets.assetTokenId, token, amount, lockTime, now);
        && (p.Err? ==> o == Fail(p.msg) && fx == [] && assets.nonce == old(assets.nonce))
        && (p.Ok? ==> (o == Pass && assets.nonce == old(assets.nonce) + 1
              && fx == CreateAndSendEffects(caller, assets.lockedTokenId, old(assets.nonce), p.value.lockedAmount, p.value.schedule)
                   + [Burn(assets.assetTokenId, 0, amount)]))
      ensures assets.lockedTokenId == old(assets.lockedTokenId) && assets.assetTokenId == old(assets.assetTokenId)
    {
      if assets.lockedTokenId == EmptyToken {
        return Fail("Nft not issued yet"), [];
      }
      if token != assets.assetTokenId {
        return Fail("Wrong token sent as payment"), [];
      }
      if amount == 0 {
        return Fail("Must lock more than 0 tokens"), [];
      }
      var latest := FindLatestRewardEpoch(table.rewards, lockTime);
      if latest !in table.rewards {
        return Fail("Couldn't find percentage reward"), [];
      }
      var bonus := amount * table.rewards[latest] / PercentageTotal;
      var created := assets.CreateAndSend(caller, amount + bonus, [Milestone(now + lockTime, PercentageTotal)]);
      o := Pass;
      fx := created + [Burn(assets.assetTokenId, 0, amount)];
    }

    /** computeEarnings */
    method CalculateEarnings(deposit: nat, waited: nat) returns (r: nat)
      ensures r == Earnings(table.rewards, deposit, waited)
    {
      var latest := FindLatestRewardEpoch(table.rewards, waited);
      r := deposit * RewardFor(table.rewards, latest) / PercentageTotal;
    }
  }

  // ---------------------------------------------------------------------
  // Lemmas

  /** The bonus of a lock is what computeEarnings quotes for the same
      amount and number of epochs. */
  lemma BonusIsEarnings(rewards: Rewards, lockedTokenId: TokenId, assetTokenId: TokenId, token: TokenId, amount: nat, lockTime: nat, now: nat)
    requires PlanLock(rewards, lockedTokenId, assetTokenId, token, amount, lockTime, now).Ok?
    ensures PlanLock(rewards, lockedTokenId, assetTokenId, token, amount, lockTime, now).value.bonus == Earnings(rewards, amount, lockTime)
  {
  }

  /** With the first three checks passed, a lock fails for want of a
      percentage exactly when the latest reward epoch is absent; when epoch
      0 carries no reward, that is exactly when no reward epoch lies below
      the lock time. */
  lemma LockNeedsReward(rewards: Rewards, lockedTokenId: TokenId, assetTokenId: TokenId, amount: nat, lockTime: nat, now: nat)
    requires lockedTokenId != EmptyToken && amount > 0
    ensures var r := PlanLock(rewards, lockedTokenId, assetTokenId, assetTokenId, amount, lockTime, now);
      r.Err? <==> LatestRewardEpoch(rewards.Keys, lockTime) !in rewards
    ensures 0 !in rewards ==>
      (PlanLock(rewards, lockedTokenId, assetTokenId, assetTokenId, amount, lockTime, now).Err? <==>
        forall k :: k in rewards ==> k >= lockTime)
  {
  }

  /** The locked position matures in one step: nothing of it is unlocked up
      to the unlock epoch, and all of it just after. */
  lemma {:induction false} LockedPositionMatures(rewards: Rewards, lockedTokenId: TokenId, assetTokenId: TokenId, token: TokenId, amount: nat, lockTime: nat, now: nat, e: nat)
    requires PlanLock(rewards, lockedTokenId, assetTokenId, token, amount, lockTime, now).Ok?
    ensures var p := PlanLock(rewards, lockedTokenId, assetTokenId, token, amount, lockTime, now).value;
      && p.lockedAmount >= amount
      && (e <= now + lockTime ==> GetUnlockAmount(p.lockedAmount, e, p.schedule) == 0)
      && (e > now + lockTime ==> GetUnlockAmount(p.lockedAmount, e, p.schedule) == p.lockedAmount)
      && (now + lockTime > 0 ==> ValidSchedule(p.schedule))
  {
    var p := PlanLock(rewards, lockedTokenId, assetTokenId, token, amount, lockTime, now).value;
    var s := p.schedule;
    assert s[1..] == [];
    assert Matured(e, s) == (if now + lockTime < e then s else []) + Matured(e, s[1..]);
    assert SumPercents(s) == 100 + SumPercents(s[1..]);
    ValidScheduleCharacterization(s);
  }
}
