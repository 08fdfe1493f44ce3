/** The locked-asset factory of sc-locked-asset-factory/src/lib.rs: a
    contract that whitelisted contracts call to turn an amount into a
    locked position, under the stored default schedule (shifted to the
    current epoch) or under a schedule of their own. Positions with the same
    attributes share one SFT nonce through a cache from attributes to
    nonce, so a repeat call only adds quantity to the batch already made.

    The engine beneath (nonce counter, create-and-send, unlock) is
    LockedAsset's LockedAssetModule; the cache is a map. */
module LockedAssetFactory {
  import opened Common
  import opened Schedule
  import opened LockedAsset

  type Cache = map<LockedTokenAttributes, Nonce>

  /** Every cached nonce names a batch already created. */
  predicate CacheValid(cache: Cache, lastNonce: Nonce)
  {
    forall a :: a in cache ==> 1 <= cache[a] <= lastNonce
  }

  /** init: a non-empty default schedule that passes the factory's
      validation. */
  function InitCheck(period: seq<Milestone>): (o: Outcome)
    ensures o.Pass? <==> period != [] && ValidSchedule(period)
    ensures period == [] ==> o == Fail("Empty param")
  {
    if period == [] then Fail("Empty param") else ValidateSchedule(period)
  }

  /** create_default_unlock_milestones: the default schedule with every
      epoch moved forward by the current epoch. */
  function DefaultMilestones(period: seq<Milestone>, now: nat): (r: seq<Milestone>)
    ensures |r| == |period|
    ensures forall i :: 0 <= i < |r| ==> r[i] == Milestone(period[i].epoch + now, period[i].percent)
  {
    seq(|period|, i requires 0 <= i < |period| => Milestone(period[i].epoch + now, period[i].percent))
  }

  /** The guards shared by both createAndForward endpoints, in order. */
  function ForwardCheck(whitelisted: bool, lockedTokenId: TokenId, amount: nat): (o: Outcome)
    ensures o.Pass? <==> whitelisted && lockedTokenId != EmptyToken && amount > 0
    ensures !whitelisted ==> o == Fail("Permission denied")
    ensures whitelisted && lockedTokenId == EmptyToken ==> o == Fail("No SFT issued")
    ensures whitelisted && lockedTokenId != EmptyToken && amount == 0 ==> o == Fail("Zero input amount")
  {
    if !whitelisted then Fail("Permission denied")
    else if lockedTokenId == EmptyToken then Fail("No SFT issued")
    else if amount == 0 then Fail("Zero input amount")
    else Pass
  }

  /** createAndForwardCustomSchedule adds only a non-emptiness check: the
      schedule is neither ordered nor summed. */
  function CustomForwardCheck(whitelisted: bool, lockedTokenId: TokenId, amount: nat, schedule: seq<Milestone>): (o: Outcome)
    ensures o.Pass? <==> ForwardCheck(whitelisted, lockedTokenId, amount).Pass? && schedule != []
    ensures ForwardCheck(whitelisted, lockedTokenId, amount).Pass? && schedule == [] ==> o == Fail("Empty param")
  {
    var c := ForwardCheck(whitelisted, lockedTokenId, amount);
    if c.Fail? then c else if schedule == [] then Fail("Empty param") else Pass
  }

  /** What a forward does: on a cache hit, quantity is added to the cached
      batch and sent; on a miss, a new batch is created and sent and its
      nonce cached. */
  datatype ForwardStep = ForwardStep(effects: seq<Effect>, cache: Cache, nonce: Nonce)

  function ForwardTransition(cache: Cache, lastNonce: Nonce, token: TokenId, to: Address, amount: nat, attrs: LockedTokenAttributes)
    : ForwardStep
    requires amount > 0
  {
    if attrs in cache then
      ForwardStep([AddQuantity(token, cache[attrs], amount), Transfer(to, token, cache[attrs], amount)], cache, lastNonce)
    else
      ForwardStep(CreateAndSendEffects(to, token, lastNonce, amount, attrs.milestones), cache[attrs := lastNonce + 1], lastNonce + 1)
  }

  class LockedAssetFactoryContract {
    const owner: Address
    /** The locked-asset engine: its token ids and last created nonce. */
    const assets: LockedAssetModule
    /** Storage "whitelist". */
    var whitelist: set<Address>
    /** Storage "default_unlock_period". */
    var defaultUnlockPeriod: seq<Milestone>
    /** The attributes-to-nonce cache. */
    var cache: Cache

    ghost predicate Valid()
      reads this, assets
    {
      CacheValid(cache, assets.nonce)
    }

    constructor (owner: Address, assetTokenId: TokenId, period: seq<Milestone>)
      ensures this.owner == owner && whitelist == {} && defaultUnlockPeriod == period && cache == map[]
      ensures fresh(assets) && assets.assetTokenId == assetTokenId && assets.lockedTokenId == EmptyToken && assets.nonce == 0
      ensures Valid()
    {
      this.owner := owner;
      assets := new LockedAssetModule(EmptyToken, assetTokenId);
      whitelist := {};
      defaultUnlockPeriod := period;
      cache := map[];
    }

    /** init: the deployment fails unless the default schedule is
      non-empty and valid. */
    static method Init(owner: Address, assetTokenId: TokenId, period: seq<Milestone>)
      returns (o: Outcome, f: LockedAssetFactoryContract?)
      ensures o == InitCheck(period)
      ensures o.Fail? ==> f == null
      ensures o.Pass? ==> (f != null && fresh(f) && fresh(f.assets) && f.Valid()
        && f.owner == owner && f.whitelist == {} && f.defaultUnlockPeriod == period && f.cache == map[]
        && f.assets.assetTokenId == assetTokenId && f.assets.lockedTokenId == EmptyToken)
    {
      if period == [] {
        return Fail("Empty param"), null;
      }
      o := Schedule.ValidateUnlockMilestones(period);
      if o.Fail? {
        return o, null;
      }
      f := new LockedAssetFactoryContract(owner, assetTokenId, period);
    }

    /** whitelist */
    method Whitelist(caller: Address, address: Address) returns (o: Outcome)
      modifies this
      ensures caller != owner ==> o == Fail("Permission denied") && whitelist == old(whitelist)
      ensures caller == owner ==> o == Pass && whitelist == old(whitelist) + {address}
      ensures defaultUnlockPeriod == old(defaultUnlockPeriod) && cache == old(cache)
    {
      if caller != owner {
        return Fail("Permission denied");
      }
      whitelist := whitelist + {address};
      o := Pass;
    }

    /** removeWhitelist */
    method RemoveWhitelist(caller: Address, address: Address) returns (o: Outcome)
      modifies this
      ensures caller != owner ==> o == Fail("Permission denied") && whitelist == old(whitelist)
      ensures caller == owner ==> o == Pass && whitelist == old(whitelist) - {address}
      ensures defaultUnlockPeriod == old(defaultUnlockPeriod) && cache == old(cache)
    {
      if caller != owner {
        return Fail("Permission denied");
      }
      whitelist := whitelist - {address};
      o := Pass;
    }

    /** The cache lookup and the hit/miss branches of both endpoints. */
    method Forward(amount: nat, to: Address, attrs: LockedTokenAttributes) returns (fx: seq<Effect>)
      requires amount > 0 && Valid()
      modifies this, assets
      ensures ForwardStep(fx, cache, assets.nonce) == ForwardTransition(old(cache), old(assets.nonce), assets.lockedTokenId, to, amount, attrs)
      ensures Valid()
      ensures whitelist == old(whitelist) && defaultUnlockPeriod == old(defaultUnlockPeriod)
      ensures assets.lockedTokenId == old(assets.lockedTokenId) && assets.assetTokenId == old(assets.assetTokenId)
    {
      if attrs in cache {
        var cached := cache[attrs];
        fx := [AddQuantity(assets.lockedTokenId, cached, amount), Transfer(to, assets.lockedTokenId, cached, amount)];
      } else {
        fx := assets.CreateAndSend(to, amount, attrs.milestones);
        cache := cache[attrs := assets.nonce];
      }
    }

    /** createAndForward: a position under the default schedule shifted to
      `now`. */
    method CreateAndForward(caller: Address, amount: nat, to: Address, now: nat) returns (o: Outcome, fx: seq<Effect>)
      requires Valid()
      modifies this, assets
      ensures o == ForwardCheck(caller in whitelist, assets.lockedTokenId, amount)
      ensures o.Pass? ==> (ForwardStep(fx, cache, assets.nonce)
        == ForwardTransition(old(cache), old(assets.nonce), assets.lockedTokenId, to, amount,
             LockedTokenAttributes(DefaultMilestones(defaultUnlockPeriod, now))))
      ensures o.Fail? ==> fx == [] && cache == old(cache) && assets.nonce == old(assets.nonce)
      ensures Valid()
      ensures whitelist == old(whitelist) && defaultUnlockPeriod == old(defaultUnlockPeriod)
      ensures assets.lockedTokenId == old(assets.lockedTokenId) && assets.assetTokenId == old(assets.assetTokenId)
    {
      o := ForwardCheck(caller in whitelist, assets.lockedTokenId, amount);
      if o.Fail? {
        return o, [];
      }
      var attrs := LockedTokenAttributes(DefaultMilestones(defaultUnlockPeriod, now));
      fx := Forward(amount, to, attrs);
    }

    /** createAndForwardCustomSchedule: a position under the caller's
      schedule, accepted as given once it is non-empty. */
    method CreateAndForwardCustomSchedule(caller: Address, amount: nat, to: Address, schedule: seq<Milestone>)
      returns (o: Outcome, fx: seq<Effect>)
      requires Valid()
      modifies this, assets
      ensures o == CustomForwardCheck(caller in whitelist, assets.lockedTokenId, amount, schedule)
      ensures o.Pass? ==> (ForwardStep(fx, cache, assets.nonce)
        == ForwardTransition(old(cache), old(assets.nonce), assets.lockedTokenId, to, amount, LockedTokenAttributes(schedule)))
      ensures o.Fail? ==> fx == [] && cache == old(cache) && assets.nonce == old(assets.nonce)
      ensures Valid()
      ensures whitelist == old(whitelist) && defaultUnlockPeriod == old(defaultUnlockPeriod)
      ensures assets.lockedTokenId == old(assets.lockedTokenId) && assets.assetTokenId == old(assets.assetTokenId)
    {
      o := CustomForwardCheck(caller in whitelist, assets.lockedTokenId, amount, schedule);
      if o.Fail? {
        return o, [];
      }
      fx := Forward(amount, to, LockedTokenAttributes(schedule));
    }
  }

  // ---------------------------------------------------------------------
  // Lemmas

  lemma {:induction false} ShiftKeepsSum(period: seq<Milestone>, now: nat)
    ensures SumPercents(DefaultMilestones(period, now)) == SumPercents(period)
  {
    if period != [] {
      ShiftKeepsSum(period[1..], now);
      assert DefaultMilestones(period, now)[1..] == DefaultMilestones(period[1..], now);
    }
  }

  /** A valid default schedule stays valid once shifted, and nothing of the
      shifted schedule has matured in the epoch it is created. */
  lemma DefaultScheduleStaysValid(period: seq<Milestone>, now: nat)
    requires ValidSchedule(period)
    ensures ValidSchedule(DefaultMilestones(period, now))
    ensures UnlockedPercent(now, DefaultMilestones(period, now)) == 0
  {
    var shifted := DefaultMilestones(period, now);
    ValidScheduleCharacterization(period);
    ValidScheduleCharacterization(shifted);
    ShiftKeepsSum(period, now);
    forall i | 0 <= i < |shifted|
      ensures shifted[i].epoch >= now
    {
      if i > 0 {
        assert period[0].epoch < period[i].epoch;
      }
    }
    NothingMatured(now, shifted);
  }

  /** A forward delivers exactly `amount` of the locked token to the
      recipient and issues exactly `amount`, whether it hits or misses. */
  lemma ForwardDelivers(cache: Cache, lastNonce: Nonce, token: TokenId, to: Address, amount: nat, attrs: LockedTokenAttributes)
    requires amount > 0
    ensures var s := ForwardTransition(cache, lastNonce, token, to, amount, attrs);
      Sent(s.effects, to, token) == amount && Created(s.effects, token) == amount
  {
    var s := ForwardTransition(cache, lastNonce, token, to, amount, attrs);
    assert s.effects == [s.effects[0]] + [s.effects[1]];
    TotalsAppend([s.effects[0]], [s.effects[1]], to, token);
  }

  /** A forward keeps every cached nonce pointing at a created batch. The
      invariant is what keeps batches apart: on a miss the new batch's nonce
      is above every cached one, so attributes cached earlier never share
      their batch with the new attributes. */
  lemma ForwardKeepsCacheValid(cache: Cache, lastNonce: Nonce, token: TokenId, to: Address, amount: nat, attrs: LockedTokenAttributes)
    requires amount > 0 && CacheValid(cache, lastNonce)
    ensures var s := ForwardTransition(cache, lastNonce, token, to, amount, attrs);
      CacheValid(s.cache, s.nonce) && attrs in s.cache && s.nonce >= lastNonce
    ensures var s := ForwardTransition(cache, lastNonce, token, to, amount, attrs);
      attrs !in cache ==> forall b :: b in cache ==> cache[b] < s.cache[attrs]
  {
  }

  /** A second forward with the same attributes reuses the batch of the
      first: it adds quantity to that nonce and creates no new one. */
  lemma RepeatReusesNonce(cache: Cache, lastNonce: Nonce, token: TokenId, to: Address, a1: nat, a2: nat, attrs: LockedTokenAttributes)
    requires a1 > 0 && a2 > 0
    ensures var s1 := ForwardTransition(cache, lastNonce, token, to, a1, attrs);
      var s2 := ForwardTransition(s1.cache, s1.nonce, token, to, a2, attrs);
      var batch := if attrs in cache then cache[attrs] else lastNonce + 1;
      && s2.nonce == s1.nonce && s2.cache == s1.cache
      && s2.effects == [AddQuantity(token, batch, a2), Transfer(to, token, batch, a2)]
      && Transfer(to, token, batch, a1) in s1.effects
  {
  }

  /** The custom-schedule endpoint's verdict on a non-empty schedule is the
      shared guards' verdict, whatever the schedule: so it forwards
      schedules that the factory's validation refuses, such as one summing
      to 30%. */
  lemma CustomScheduleIsNotValidated(whitelisted: bool, lockedTokenId: TokenId, amount: nat, schedule: seq<Milestone>)
    requires schedule != []
    ensures CustomForwardCheck(whitelisted, lockedTokenId, amount, schedule) == ForwardCheck(whitelisted, lockedTokenId, amount)
    ensures !ValidSchedule([Milestone(5, 30)])
  {
    ValidScheduleCharacterization([Milestone(5, 30)]);
  }
}
