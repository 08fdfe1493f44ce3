/** Locked-asset positions: SFT batches of the locked token whose attributes
    carry an unlock schedule. The same module sits in
    common/modules/src/locked_asset.rs, in
    sc-locked-asset-factory/src/locked_asset.rs (whose unlockAssets is this
    one, unguarded) and in sc-distribution-rs/src/locked_asset.rs (which adds
    a global-operation guard, see DistributionLockedAsset).

    The schedule of the paid batch is a parameter: decoding the batch
    attributes is a host read. Host effects are returned as a log; a failed
    endpoint rolls back, so its log is empty and its state unchanged. */
module LockedAsset {
  import opened Common
  import opened Schedule

  /** What an accepted unlock pays out and re-locks. */
  datatype UnlockPlan = UnlockPlan(unlocked: nat, remaining: nat, residual: seq<Milestone>)

  /** The checks and arithmetic of unlock_assets, in the source's order:
      the payment token, then "more than locked", then "too soon", then the
      residual schedule (whose panics abort the transaction). */
  function PlanUnlock(lockedTokenId: TokenId, paymentToken: TokenId, amount: nat, now: nat, ms: seq<Milestone>)
    : (r: Result<UnlockPlan>)
    ensures paymentToken != lockedTokenId ==> r == Err("Bad payment token")
    ensures paymentToken == lockedTokenId && amount < GetUnlockAmount(amount, now, ms) ==> r == Err("Cannot unlock more than locked")
    ensures paymentToken == lockedTokenId && GetUnlockAmount(amount, now, ms) == 0 ==> r == Err("Method called too soon")
    ensures UnlockedPercent(now, ms) > 100 && amount > 0 ==> r.Err?
    ensures r.Ok? ==> paymentToken == lockedTokenId
    ensures r.Ok? ==> r.value.unlocked == GetUnlockAmount(amount, now, ms) > 0
    ensures r.Ok? ==> r.value.unlocked + r.value.remaining == amount
    ensures r.Ok? ==> NewUnlockMilestones(now, ms) == Ok(r.value.residual)
  {
    if paymentToken != lockedTokenId then Err("Bad payment token")
    else
      var unlocked := GetUnlockAmount(amount, now, ms);
      if amount < unlocked then Err("Cannot unlock more than locked")
      else if unlocked == 0 then Err("Method called too soon")
      else match NewUnlockMilestones(now, ms)
        case Err(e) => Err(e)
        case Ok(residual) => Ok(UnlockPlan(unlocked, amount - unlocked, residual))
  }

  /** create_and_send_locked_assets: nothing for a zero amount, otherwise a
      new batch (whose nonce is the next one) sent to `to`. */
  function CreateAndSendEffects(to: Address, token: TokenId, lastNonce: Nonce, amount: nat, ms: seq<Milestone>)
    : seq<Effect>
  {
    if amount > 0 then [Create(token, amount, Locked(LockedTokenAttributes(ms))), Transfer(to, token, lastNonce + 1, amount)]
    else []
  }

  /** The number of batches create_and_send_multiple creates: one per
      positive amount among the pairs the zip visits. */
  function CreatedCount(amounts: seq<nat>, schedules: seq<seq<Milestone>>): nat
  {
    if amounts == [] || schedules == [] then 0
    else (if amounts[0] > 0 then 1 else 0) + CreatedCount(amounts[1..], schedules[1..])
  }

  /** The effects of create_and_send_multiple: amounts and schedules are
      paired by position and the walk stops at the shorter list. */
  function MultipleEffects(to: Address, token: TokenId, lastNonce: Nonce, amounts: seq<nat>, schedules: seq<seq<Milestone>>)
    : seq<Effect>
    decreases amounts
  {
    if amounts == [] || schedules == [] then []
    else
      var next := lastNonce + if amounts[0] > 0 then 1 else 0;
      CreateAndSendEffects(to, token, lastNonce, amounts[0], schedules[0])
        + MultipleEffects(to, token, next, amounts[1..], schedules[1..])
  }

  /** The whole effect of an unlockAssets call: its verdict, its host
      effects and the new stored nonce. */
  datatype UnlockStep = UnlockStep(outcome: Outcome, effects: seq<Effect>, nonce: Nonce)

  function UnlockTransition(
    lockedTokenId: TokenId, assetTokenId: TokenId, lastNonce: Nonce,
    caller: Address, paymentToken: TokenId, paymentNonce: Nonce, amount: nat, ms: seq<Milestone>, now: nat)
    : UnlockStep
  {
    match PlanUnlock(lockedTokenId, paymentToken, amount, now, ms)
    case Err(e) => UnlockStep(Fail(e), [], lastNonce)
    case Ok(p) =>
      UnlockStep(
        Pass,
        MintIfPositive(assetTokenId, p.unlocked) + TransferIfPositive(caller, assetTokenId, 0, p.unlocked)
          + CreateAndSendEffects(caller, lockedTokenId, lastNonce, p.remaining, p.residual)
          + [Burn(lockedTokenId, paymentNonce, amount)],
        lastNonce + (if p.remaining > 0 then 1 else 0))
  }

  /** issueNft of the locked-asset contracts: owner-only, and only while no
      locked token id is stored. The asynchronous issue itself is a host
      call. */
  function IssueNftCheck(caller: Address, owner: Address, lockedTokenId: TokenId): (o: Outcome)
    ensures o.Pass? <==> caller == owner && lockedTokenId == EmptyToken
    ensures caller != owner ==> o == Fail("Permission denied")
    ensures caller == owner && lockedTokenId != EmptyToken ==> o == Fail("NFT already issued")
  {
    if caller != owner then Fail("Permission denied")
    else if lockedTokenId != EmptyToken then Fail("NFT already issued")
    else Pass
  }

  /** setLocalRoles of the locked-asset contracts: owner-only, for the
      stored locked token, with at least one role. */
  function SetLocalRolesCheck(caller: Address, owner: Address, token: TokenId, lockedTokenId: TokenId, roles: seq<string>)
    : (o: Outcome)
    ensures o.Pass? <==> caller == owner && token == lockedTokenId && roles != []
    ensures caller != owner ==> o == Fail("Permission denied")
    ensures caller == owner && token != lockedTokenId ==> o == Fail("Bad token id")
    ensures caller == owner && token == lockedTokenId && roles == [] ==> o == Fail("Empty roles")
  {
    if caller != owner then Fail("Permission denied")
    else if token != lockedTokenId then Fail("Bad token id")
    else if roles == [] then Fail("Empty roles")
    else Pass
  }

  class LockedAssetModule {
    /** Storage "locked_token_id". */
    var lockedTokenId: TokenId
    /** The fungible token minted on unlock (storage "distributed_token_id"). */
    var assetTokenId: TokenId
    /** Storage "locked_token_nonce": the nonce of the last batch created. */
    var nonce: Nonce

    constructor (lockedTokenId: TokenId, assetTokenId: TokenId)
      ensures this.lockedTokenId == lockedTokenId && this.assetTokenId == assetTokenId && nonce == 0
    {
      this.lockedTokenId := lockedTokenId;
      this.assetTokenId := assetTokenId;
      nonce := 0;
    }

    method SetLockedTokenId(token: TokenId)
      modifies this
      ensures lockedTokenId == token && assetTokenId == old(assetTokenId) && nonce == old(nonce)
    {
      lockedTokenId := token;
    }

    /** issue_nft_callback: a successful issue stores the new token id; a
      failed one returns the issue payment to the owner. */
    method IssueNftCallback(owner: Address, result: Result<TokenId>, paymentToken: TokenId, payment: nat)
      returns (fx: seq<Effect>)
      modifies this
      ensures result.Ok? ==> lockedTokenId == result.value && fx == []
      ensures result.Err? ==> lockedTokenId == old(lockedTokenId) && fx == [Transfer(owner, paymentToken, 0, payment)]
      ensures assetTokenId == old(assetTokenId) && nonce == old(nonce)
    {
      if result.Ok? {
        lockedTokenId := result.value;
        fx := [];
      } else {
        fx := [Transfer(owner, paymentToken, 0, payment)];
      }
    }

    /** increase_nonce: the stored nonce grows by one and is returned. */
    method IncreaseNonce() returns (n: Nonce)
      modifies this
      ensures nonce == old(nonce) + 1 && n == nonce
      ensures lockedTokenId == old(lockedTokenId) && assetTokenId == old(assetTokenId)
    {
      nonce := nonce + 1;
      n := nonce;
    }

    /** create_and_send_locked_assets: a batch is created, and the nonce
      raised by exactly one, only for a positive amount. */
    method CreateAndSend(to: Address, amount: nat, ms: seq<Milestone>) returns (fx: seq<Effect>)
      modifies this
      ensures fx == CreateAndSendEffects(to, lockedTokenId, old(nonce), amount, ms)
      ensures nonce == old(nonce) + (if amount > 0 then 1 else 0)
      ensures lockedTokenId == old(lockedTokenId) && assetTokenId == old(assetTokenId)
    {
      fx := [];
      if amount > 0 {
        var created := IncreaseNonce();
        fx := [Create(lockedTokenId, amount, Locked(LockedTokenAttributes(ms))), Transfer(to, lockedTokenId, created, amount)];
      }
    }

    /** create_and_send_multiple(_locked_assets): one create-and-send per
      (amount, schedule) pair, stopping at the shorter list. */
    method CreateAndSendMultiple(to: Address, amounts: seq<nat>, schedules: seq<seq<Milestone>>)
      returns (fx: seq<Effect>)
      modifies this
      ensures fx == MultipleEffects(to, lockedTokenId, old(nonce), amounts, schedules)
      ensures nonce == old(nonce) + CreatedCount(amounts, schedules)
      ensures lockedTokenId == old(lockedTokenId) && assetTokenId == old(assetTokenId)
    {
      fx := [];
      var i := 0;
      while i < |amounts| && i < |schedules|
        invariant 0 <= i <= |amounts| && i <= |schedules|
        invariant lockedTokenId == old(lockedTokenId) && assetTokenId == old(assetTokenId)
        invariant MultipleEffects(to, lockedTokenId, old(nonce), amounts, schedules)
          == fx + MultipleEffects(to, lockedTokenId, nonce, amounts[i..], schedules[i..])
        invariant old(nonce) + CreatedCount(amounts, schedules) == nonce + CreatedCount(amounts[i..], schedules[i..])
      {
        MultipleUnfold(to, lockedTokenId, nonce, amounts, schedules, i);
        var step := CreateAndSend(to, amounts[i], schedules[i]);
        fx := fx + step;
        i := i + 1;
      }
    }

    /** unlockAssets / unlock_assets: pays out the matured part of a locked
      batch as freshly minted asset, re-locks the rest under the residual
      schedule and burns the paid batch; on any abort nothing happens. */
    method UnlockAssets(caller: Address, paymentToken: TokenId, paymentNonce: Nonce, amount: nat, ms: seq<Milestone>, now: nat)
      returns (o: Outcome, fx: seq<Effect>)
      modifies this
      ensures UnlockStep(o, fx, nonce)
        == UnlockTransition(lockedTokenId, assetTokenId, old(nonce), caller, paymentToken, paymentNonce, amount, ms, now)
      ensures lockedTokenId == old(lockedTokenId) && assetTokenId == old(assetTokenId)
    {
      if paymentToken != lockedTokenId {
        return Fail("Bad payment token"), [];
      }
      var pct := GetUnlockPercent(now, ms);
      var unlocked := amount * pct / 100;
      assert unlocked == GetUnlockAmount(amount, now, ms);
      if amount < unlocked {
        return Fail("Cannot unlock more than locked"), [];
      }
      if unlocked == 0 {
        return Fail("Method called too soon"), [];
      }
      var residual := CreateNewUnlockMilestones(now, ms);
      if residual.Err? {
        return Fail(residual.msg), [];
      }
      var relocked := CreateAndSend(caller, amount - unlocked, residual.value);
      o := Pass;
      fx := MintIfPositive(assetTokenId, unlocked) + TransferIfPositive(caller, assetTokenId, 0, unlocked)
        + relocked + [Burn(lockedTokenId, paymentNonce, amount)];
    }
  }

  /** One step of the zip from position i. */
  lemma MultipleUnfold(to: Address, token: TokenId, n: Nonce, amounts: seq<nat>, schedules: seq<seq<Milestone>>, i: nat)
    requires i < |amounts| && i < |schedules|
    ensures var next := n + if amounts[i] > 0 then 1 else 0;
      && MultipleEffects(to, token, n, amounts[i..], schedules[i..])
        == CreateAndSendEffects(to, token, n, amounts[i], schedules[i]) + MultipleEffects(to, token, next, amounts[i + 1..], schedules[i + 1..])
      && CreatedCount(amounts[i..], schedules[i..])
        == (if amounts[i] > 0 then 1 else 0) + CreatedCount(amounts[i + 1..], schedules[i + 1..])
  {
    assert amounts[i..][1..] == amounts[i + 1..] && schedules[i..][1..] == schedules[i + 1..];
  }

  // ---------------------------------------------------------------------
  // Properties

  /** Only the pairs the zip visits matter: the longer list's tail is ignored. */
  lemma {:induction false} MultipleStopsAtShorter(to: Address, token: TokenId, lastNonce: Nonce, amounts: seq<nat>, schedules: seq<seq<Milestone>>)
    decreases amounts
    ensures var k := Min(|amounts|, |schedules|);
      && MultipleEffects(to, token, lastNonce, amounts, schedules) == MultipleEffects(to, token, lastNonce, amounts[..k], schedules[..k])
      && CreatedCount(amounts, schedules) == CreatedCount(amounts[..k], schedules[..k]) <= k
  {
    var k := Min(|amounts|, |schedules|);
    if k > 0 {
      var step := if amounts[0] > 0 then 1 else 0;
      MultipleStopsAtShorter(to, token, lastNonce + step, amounts[1..], schedules[1..]);
      assert amounts[..k][1..] == amounts[1..][..k - 1];
      assert schedules[..k][1..] == schedules[1..][..k - 1];
    }
  }

  /** Every batch created by create_and_send_multiple holds a positive amount
      and is the next nonce; the log is exactly two effects per batch. */
  lemma {:induction false} MultipleEffectsShape(to: Address, token: TokenId, lastNonce: Nonce, amounts: seq<nat>, schedules: seq<seq<Milestone>>)
    decreases amounts
    ensures |MultipleEffects(to, token, lastNonce, amounts, schedules)| == 2 * CreatedCount(amounts, schedules)
    ensures Created(MultipleEffects(to, token, lastNonce, amounts, schedules), token)
      == Sent(MultipleEffects(to, token, lastNonce, amounts, schedules), to, token)
  {
    if amounts != [] && schedules != [] {
      var step := if amounts[0] > 0 then 1 else 0;
      MultipleEffectsShape(to, token, lastNonce + step, amounts[1..], schedules[1..]);
      var head := CreateAndSendEffects(to, token, lastNonce, amounts[0], schedules[0]);
      var tail := MultipleEffects(to, token, lastNonce + step, amounts[1..], schedules[1..]);
      TotalsAppend(head, tail, to, token);
    }
  }

  /** For a schedule summing to 100 and the right token, unlocking is refused
      only as "too soon", and a locked remainder is re-created exactly when
      the residual schedule is non-empty. */
  lemma FullScheduleUnlock(lockedTokenId: TokenId, amount: nat, now: nat, ms: seq<Milestone>)
    requires SumPercents(ms) == 100
    ensures var r := PlanUnlock(lockedTokenId, lockedTokenId, amount, now, ms);
      && (r.Ok? <==> GetUnlockAmount(amount, now, ms) > 0)
      && (r.Err? ==> r.msg == "Method called too soon")
      && (r.Ok? ==> (r.value.remaining == 0 <==> r.value.residual == []))
  {
    PartitionSum(now, ms);
    ResidualWellDefined(now, ms);
    var pct := UnlockedPercent(now, ms);
    var unlocked := GetUnlockAmount(amount, now, ms);
    if pct < 100 && amount > 0 {
      MulMonotone(amount, pct, 99);
      assert unlocked < amount;
    }
  }

  /** The totals of an accepted unlock's log, part by part. */
  lemma UnlockLogTotals(
    lockedTokenId: TokenId, assetTokenId: TokenId, lastNonce: Nonce, caller: Address,
    p: UnlockPlan, paymentNonce: Nonce, amount: nat, fx: seq<Effect>)
    requires assetTokenId != lockedTokenId && p.unlocked > 0
    requires fx == MintIfPositive(assetTokenId, p.unlocked) + TransferIfPositive(caller, assetTokenId, 0, p.unlocked)
      + CreateAndSendEffects(caller, lockedTokenId, lastNonce, p.remaining, p.residual)
      + [Burn(lockedTokenId, paymentNonce, amount)]
    ensures Minted(fx, assetTokenId) == Sent(fx, caller, assetTokenId) == p.unlocked
    ensures Created(fx, lockedTokenId) == Sent(fx, caller, lockedTokenId) == p.remaining
    ensures Burned(fx, lockedTokenId) == amount && Minted(fx, lockedTokenId) == 0
  {
    var m := Mint(assetTokenId, p.unlocked);
    var t := Transfer(caller, assetTokenId, 0, p.unlocked);
    var b := Burn(lockedTokenId, paymentNonce, amount);
    var tokens := [assetTokenId, lockedTokenId];
    if p.remaining > 0 {
      var cr := Create(lockedTokenId, p.remaining, Locked(LockedTokenAttributes(p.residual)));
      var t2 := Transfer(caller, lockedTokenId, lastNonce + 1, p.remaining);
      assert fx == [] + [m] + [t] + [cr] + [t2] + [b];
      forall token | token in tokens
        ensures Minted(fx, token) == MintOf(m, token) + MintOf(t, token) + MintOf(cr, token) + MintOf(t2, token) + MintOf(b, token)
        ensures Created(fx, token) == CreateOf(m, token) + CreateOf(t, token) + CreateOf(cr, token) + CreateOf(t2, token) + CreateOf(b, token)
        ensures Burned(fx, token) == BurnOf(m, token) + BurnOf(t, token) + BurnOf(cr, token) + BurnOf(t2, token) + BurnOf(b, token)
        ensures Sent(fx, caller, token) == SendOf(m, caller, token) + SendOf(t, caller, token) + SendOf(cr, caller, token) + SendOf(t2, caller, token) + SendOf(b, caller, token)
      {
        TotalsSnoc([], m, caller, token);
        TotalsSnoc([] + [m], t, caller, token);
        TotalsSnoc([] + [m] + [t], cr, caller, token);
        TotalsSnoc([] + [m] + [t] + [cr], t2, caller, token);
        TotalsSnoc([] + [m] + [t] + [cr] + [t2], b, caller, token);
      }
      assert assetTokenId in tokens && lockedTokenId in tokens;
    } else {
      assert fx == [] + [m] + [t] + [b];
      forall token | token in tokens
        ensures Minted(fx, token) == MintOf(m, token) + MintOf(t, token) + MintOf(b, token)
        ensures Created(fx, token) == CreateOf(m, token) + CreateOf(t, token) + CreateOf(b, token)
        ensures Burned(fx, token) == BurnOf(m, token) + BurnOf(t, token) + BurnOf(b, token)
        ensures Sent(fx, caller, token) == SendOf(m, caller, token) + SendOf(t, caller, token) + SendOf(b, caller, token)
      {
        TotalsSnoc([], m, caller, token);
        TotalsSnoc([] + [m], t, caller, token);
        TotalsSnoc([] + [m] + [t], b, caller, token);
      }
      assert assetTokenId in tokens && lockedTokenId in tokens;
    }
  }

  /** Conservation of an accepted unlock: the asset minted and sent to the
      caller plus the quantity re-locked for the caller is the quantity
      burned, the paid amount. */
  lemma UnlockConserves(
    lockedTokenId: TokenId, assetTokenId: TokenId, lastNonce: Nonce,
    caller: Address, paymentToken: TokenId, paymentNonce: Nonce, amount: nat, ms: seq<Milestone>, now: nat)
    requires assetTokenId != lockedTokenId
    ensures var s := UnlockTransition(lockedTokenId, assetTokenId, lastNonce, caller, paymentToken, paymentNonce, amount, ms, now);
      s.outcome.Pass? ==>
        && Minted(s.effects, assetTokenId) == Sent(s.effects, caller, assetTokenId) > 0
        && Minted(s.effects, assetTokenId) + Created(s.effects, lockedTokenId) == Burned(s.effects, lockedTokenId) == amount
        && Created(s.effects, lockedTokenId) == Sent(s.effects, caller, lockedTokenId)
  {
    var r := PlanUnlock(lockedTokenId, paymentToken, amount, now, ms);
    if r.Ok? {
      var s := UnlockTransition(lockedTokenId, assetTokenId, lastNonce, caller, paymentToken, paymentNonce, amount, ms, now);
      UnlockLogTotals(lockedTokenId, assetTokenId, lastNonce, caller, r.value, paymentNonce, amount, s.effects);
    }
  }

  /** The worked example of the schedule engine as an unlock of 1000. */
  lemma UnlockWorkedExample(lockedTokenId: TokenId)
    ensures PlanUnlock(lockedTokenId, lockedTokenId, 1000, 15, [Milestone(10, 30), Milestone(20, 70)])
      == Ok(UnlockPlan(300, 700, [Milestone(20, 100)]))
  {
    WorkedExample();
  }
}
