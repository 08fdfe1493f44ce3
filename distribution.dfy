/** The community-distribution ledger of sc-distribution-rs/src/lib.rs.

    The contract keeps a list of distribution rounds, newest first (the
    linked list is push_front/pop_front-ed, index 0 is its front), and a map
    from (user, spread epoch, locked flag) to the amount a user may claim.
    During a global operation the owner adds rounds and allocates amounts
    from the newest round; outside it users claim from the four newest
    rounds that have already spread.

    The caller, the current epoch and the points where the gas check would
    stop the purge are parameters; minting and sending are returned as a log.
    A failed endpoint rolls back, so it changes nothing. */
module Distribution {
  import opened Common
  import opened GlobalOp
  import Schedule

  /** MAX_CLAIMABLE_DISTRIBUTION_ROUNDS */
  const MaxClaimableRounds: nat := 4

  /** GAS_CHECK_FREQUENCY */
  const GasCheckFrequency: nat := 100

  /** One (address, amount) argument of setPerUserDistributed(Locked)Assets. */
  datatype UserAsset = UserAsset(user: Address, amount: nat)

  /** The newest round's remaining amount and the user-asset map after an
      allocation. */
  datatype Allocation = Allocation(after: nat, assets: map<UserAssetKey, nat>)

  /** What a scan of the claim window found, and the map it leaves. */
  datatype ScanResult = ScanResult(amounts: seq<nat>, schedules: seq<seq<Milestone>>, assets: map<UserAssetKey, nat>)

  // ---------------------------------------------------------------------
  // Specification functions

  /** Spread epochs strictly decrease from the front of the list. */
  predicate Chronological(rounds: seq<CommunityDistribution>)
  {
    forall i, j :: 0 <= i < j < |rounds| ==> rounds[i].spreadEpoch > rounds[j].spreadEpoch
  }

  predicate WithinTotal(rounds: seq<CommunityDistribution>)
  {
    forall i :: 0 <= i < |rounds| ==> rounds[i].afterPlanningAmount <= rounds[i].totalAmount
  }

  /** The spread epoch of the front round, 0 for an empty list. */
  function FrontSpread(rounds: seq<CommunityDistribution>): nat
  {
    if rounds == [] then 0 else rounds[0].spreadEpoch
  }

  function SumAmounts(v: seq<nat>): nat
  {
    if v == [] then 0 else v[0] + SumAmounts(v[1..])
  }

  function TotalAllocated(entries: seq<UserAsset>): nat
  {
    if entries == [] then 0 else entries[0].amount + TotalAllocated(entries[1..])
  }

  /** The per-milestone check of the distribution's validate_unlock_milestones:
      epochs strictly increasing from 0, no bound on a single percent. */
  function OrderCheck(last: nat, ms: seq<Milestone>): Outcome
    decreases ms
  {
    if ms == [] then Pass
    else if ms[0].epoch <= last then Fail("Unlock epochs not in order")
    else OrderCheck(ms[0].epoch, ms[1..])
  }

  function ValidateDistributionSchedule(ms: seq<Milestone>): Outcome
  {
    match OrderCheck(0, ms)
    case Fail(e) => Fail(e)
    case Pass => if ms != [] && Schedule.SumPercents(ms) != 100 then Fail("Precents do not sum up to 100") else Pass
  }

  /** add_all_user_assets_to_map after its spread-epoch check: each amount is
      drawn from the remaining `after`, then its key must be new. */
  function Allocate(after: nat, m: map<UserAssetKey, nat>, spreadEpoch: nat, entries: seq<UserAsset>, locked: bool)
    : Result<Allocation>
    decreases entries
  {
    if entries == [] then Ok(Allocation(after, m))
    else if after < entries[0].amount then Err("User assets sums above community total assets")
    else
      var key := UserAssetKey(entries[0].user, spreadEpoch, locked);
      if key in m then Err("Vector has duplicates")
      else Allocate(after - entries[0].amount, m[key := entries[0].amount], spreadEpoch, entries[1..], locked)
  }

  function EntryKeys(entries: seq<UserAsset>, spreadEpoch: nat, locked: bool): set<UserAssetKey>
  {
    set i | 0 <= i < |entries| :: UserAssetKey(entries[i].user, spreadEpoch, locked)
  }

  predicate DistinctUsers(entries: seq<UserAsset>)
  {
    forall i, j :: 0 <= i < j < |entries| ==> entries[i].user != entries[j].user
  }

  /** The rounds calculate_user_assets looks at: the first four of the list. */
  function ClaimWindow(rounds: seq<CommunityDistribution>): seq<CommunityDistribution>
  {
    rounds[..Min(MaxClaimableRounds, |rounds|)]
  }

  /** calculate_user_assets over the rounds `rs`: every round that has spread
      by `now` and holds an entry for the user contributes its amount and
      schedule; `delete` removes the entry as it is visited. */
  function Scan(rs: seq<CommunityDistribution>, now: nat, m: map<UserAssetKey, nat>, user: Address, locked: bool, delete: bool)
    : ScanResult
  {
    if rs == [] then ScanResult([], [], m)
    else
      var key := UserAssetKey(user, rs[0].spreadEpoch, locked);
      if rs[0].spreadEpoch <= now && key in m then
        var rest := Scan(rs[1..], now, if delete then m - {key} else m, user, locked, delete);
        ScanResult([m[key]] + rest.amounts, [rs[0].milestones] + rest.schedules, rest.assets)
      else Scan(rs[1..], now, m, user, locked, delete)
  }

  /** The keys whose spread epoch lies in [lower, higher]. */
  function InRange(keys: set<UserAssetKey>, lower: nat, higher: nat): set<UserAssetKey>
  {
    set k | k in keys && lower <= k.spreadEpoch <= higher
  }

  class EsdtDistribution {
    const owner: Address
    /** Storage "global_operation_ongoing". */
    const op: GlobalOperation
    /** Storage "distributed_token_id". */
    var distributedTokenId: TokenId
    /** Storage "community_distribution_list", front first. */
    var rounds: seq<CommunityDistribution>
    /** Storage "user_asset". */
    var userAssets: map<UserAssetKey, nat>

    ghost predicate Valid()
      reads this
    {
      Chronological(rounds) && WithinTotal(rounds)
    }

    /** init */
    constructor (owner: Address, distributedTokenId: TokenId)
      ensures Valid() && fresh(op) && !op.ongoing
      ensures this.owner == owner && this.distributedTokenId == distributedTokenId
      ensures rounds == [] && userAssets == map[]
    {
      this.owner := owner;
      op := new GlobalOperation();
      this.distributedTokenId := distributedTokenId;
      rounds := [];
      userAssets := map[];
    }

    /** startGlobalOperation: owner only, sets the flag. */
    method StartPlanning(caller: Address) returns (o: Outcome)
      modifies op
      ensures caller != owner ==> o == Fail("Permission denied") && op.ongoing == old(op.ongoing)
      ensures caller == owner ==> o == Pass && op.ongoing
    {
      if caller != owner {
        return Fail("Permission denied");
      }
      op.Start();
      o := Pass;
    }

    /** endGlobalOperation: owner only, clears the flag. */
    method EndPlanning(caller: Address) returns (o: Outcome)
      modifies op
      ensures caller != owner ==> o == Fail("Permission denied") && op.ongoing == old(op.ongoing)
      ensures caller == owner ==> o == Pass && !op.ongoing
    {
      if caller != owner {
        return Fail("Permission denied");
      }
      op.Stop();
      o := Pass;
    }

    /** The guards of setCommunityDistribution, in their order. */
    function SetCommunityDistribCheck(caller: Address, spreadEpoch: nat, ms: seq<Milestone>, now: nat): Outcome
      reads this, op
    {
      if caller != owner then Fail("Permission denied")
      else if !op.ongoing then Fail("Global Operation not ongoing")
      else if spreadEpoch < now then Fail("Spread epoch in the past")
      else if FrontSpread(rounds) >= spreadEpoch then Fail("Community distribution should be added in chronological order")
      else ValidateDistributionSchedule(ms)
    }

    /** setCommunityDistribution: pushes a round whose remaining amount is its
      total at the front. */
    method SetCommunityDistrib(caller: Address, totalAmount: nat, spreadEpoch: nat, ms: seq<Milestone>, now: nat)
      returns (o: Outcome)
      requires Valid()
      modifies this
      ensures Valid()
      ensures o == old(SetCommunityDistribCheck(caller, spreadEpoch, ms, now))
      ensures o.Pass? ==> rounds == [CommunityDistribution(totalAmount, spreadEpoch, totalAmount, ms)] + old(rounds)
      ensures o.Fail? ==> rounds == old(rounds)
      ensures userAssets == old(userAssets) && distributedTokenId == old(distributedTokenId)
    {
      if caller != owner {
        return Fail("Permission denied");
      }
      if !op.ongoing {
        return Fail("Global Operation not ongoing");
      }
      if spreadEpoch < now {
        return Fail("Spread epoch in the past");
      }
      if FrontSpread(rounds) >= spreadEpoch {
        return Fail("Community distribution should be added in chronological order");
      }
      o := ValidateUnlockMilestones(ms);
      if o.Fail? {
        return;
      }
      var newRound := CommunityDistribution(totalAmount, spreadEpoch, totalAmount, ms);
      NewFrontKeepsOrder(rounds, newRound);
      rounds := [newRound] + rounds;
    }

    /** The distribution's validate_unlock_milestones. */
    static method ValidateUnlockMilestones(ms: seq<Milestone>) returns (o: Outcome)
      ensures o == ValidateDistributionSchedule(ms)
    {
      var sum := 0;
      var last := 0;
      var i := 0;
      while i < |ms|
        invariant 0 <= i <= |ms|
        invariant sum == Schedule.SumPercents(ms[..i])
        invariant OrderCheck(0, ms) == OrderCheck(last, ms[i..])
      {
        assert ms[i..][1..] == ms[i + 1..];
        if ms[i].epoch <= last {
          return Fail("Unlock epochs not in order");
        }
        assert ms[..i + 1] == ms[..i] + [ms[i]];
        Schedule.SumPercentsAppend(ms[..i], [ms[i]]);
        last := ms[i].epoch;
        sum := sum + ms[i].percent;
        i := i + 1;
      }
      assert ms[..|ms|] == ms;
      if |ms| != 0 && sum != 100 {
        return Fail("Precents do not sum up to 100");
      }
      o := Pass;
    }

    /** add_all_user_assets_to_map: on success the front round's remaining
      amount becomes the allocation's, and the new entries are in the map;
      on failure nothing changes. */
    method AddAllUserAssetsToMap(spreadEpoch: nat, entries: seq<UserAsset>, locked: bool) returns (o: Outcome)
      requires Valid() && rounds != []
      modifies this
      ensures Valid()
      ensures spreadEpoch != old(rounds[0].spreadEpoch) ==> o == Fail("Bad spread epoch") && rounds == old(rounds) && userAssets == old(userAssets)
      ensures spreadEpoch == old(rounds[0].spreadEpoch) ==> (
        var a := Allocate(old(rounds[0].afterPlanningAmount), old(userAssets), spreadEpoch, entries, locked);
        && (a.Err? ==> o == Fail(a.msg) && rounds == old(rounds) && userAssets == old(userAssets))
        && (a.Ok? ==> (o == Pass && userAssets == a.value.assets
                       && rounds == [old(rounds[0]).(afterPlanningAmount := a.value.after)] + old(rounds[1..]))))
      ensures distributedTokenId == old(distributedTokenId)
    {
      var front := rounds[0];
      if spreadEpoch != front.spreadEpoch {
        return Fail("Bad spread epoch");
      }
      var after: nat := front.afterPlanningAmount;
      var m: map<UserAssetKey, nat> := userAssets;
      var i := 0;
      while i < |entries|
        invariant 0 <= i <= |entries|
        invariant Allocate(front.afterPlanningAmount, userAssets, spreadEpoch, entries, locked)
          == Allocate(after, m, spreadEpoch, entries[i..], locked)
      {
        assert entries[i..][1..] == entries[i + 1..];
        if after < entries[i].amount {
          return Fail("User assets sums above community total assets");
        }
        after := after - entries[i].amount;
        var key := UserAssetKey(entries[i].user, spreadEpoch, locked);
        if key in m {
          return Fail("Vector has duplicates");
        }
        m := m[key := entries[i].amount];
        i := i + 1;
      }
      AllocateConserves(front.afterPlanningAmount, userAssets, spreadEpoch, entries, locked);
      rounds := [front.(afterPlanningAmount := after)] + rounds[1..];
      userAssets := m;
      o := Pass;
    }

    /** setPerUserDistributedAssets */
    method SetPerUserDistributedAssets(caller: Address, spreadEpoch: nat, entries: seq<UserAsset>) returns (o: Outcome)
      requires Valid()
      modifies this
      ensures Valid()
      ensures caller != owner ==> o == Fail("Permission denied")
      ensures caller == owner && !op.ongoing ==> o == Fail("Global Operation not ongoing")
      ensures caller == owner && op.ongoing && old(rounds) == [] ==> o == Fail("Empty community assets list")
      ensures caller == owner && op.ongoing && old(rounds) != [] && entries == [] ==> o == Fail("Empty assets vec")
      ensures o.Pass? ==> (
        && caller == owner && op.ongoing && old(rounds) != [] && spreadEpoch == old(rounds[0].spreadEpoch)
        && var a := Allocate(old(rounds[0].afterPlanningAmount), old(userAssets), spreadEpoch, entries, false);
           a.Ok? && userAssets == a.value.assets && rounds == [old(rounds[0]).(afterPlanningAmount := a.value.after)] + old(rounds[1..]))
      ensures o.Fail? ==> rounds == old(rounds) && userAssets == old(userAssets)
      ensures caller == owner && op.ongoing && old(rounds) != [] && entries != [] ==>
        o == (if spreadEpoch != old(rounds[0].spreadEpoch) then Fail("Bad spread epoch")
              else match Allocate(old(rounds[0].afterPlanningAmount), old(userAssets), spreadEpoch, entries, false)
                case Err(msg) => Fail(msg)
                case Ok(_) => Pass)
      ensures distributedTokenId == old(distributedTokenId)
    {
      if caller != owner {
        return Fail("Permission denied");
      }
      if !op.ongoing {
        return Fail("Global Operation not ongoing");
      }
      if rounds == [] {
        return Fail("Empty community assets list");
      }
      if entries == [] {
        return Fail("Empty assets vec");
      }
      o := AddAllUserAssetsToMap(spreadEpoch, entries, false);
    }

    /** setPerUserDistributedLockedAssets: also demands that the front round
      has an unlock schedule. */
    method SetPerUserDistributedLockedAssets(caller: Address, spreadEpoch: nat, entries: seq<UserAsset>) returns (o: Outcome)
      requires Valid()
      modifies this
      ensures Valid()
      ensures caller != owner ==> o == Fail("Permission denied")
      ensures caller == owner && !op.ongoing ==> o == Fail("Global Operation not ongoing")
      ensures caller == owner && op.ongoing && old(rounds) == [] ==> o == Fail("Empty community assets list")
      ensures caller == owner && op.ongoing && old(rounds) != [] && old(rounds[0].milestones) == [] ==> o == Fail("No unlock milestones set")
      ensures caller == owner && op.ongoing && old(rounds) != [] && old(rounds[0].milestones) != [] && entries == [] ==> o == Fail("Empty assets vec")
      ensures o.Pass? ==> (
        && caller == owner && op.ongoing && old(rounds) != [] && old(rounds[0].milestones) != []
        && spreadEpoch == old(rounds[0].spreadEpoch)
        && var a := Allocate(old(rounds[0].afterPlanningAmount), old(userAssets), spreadEpoch, entries, true);
           a.Ok? && userAssets == a.value.assets && rounds == [old(rounds[0]).(afterPlanningAmount := a.value.after)] + old(rounds[1..]))
      ensures o.Fail? ==> rounds == old(rounds) && userAssets == old(userAssets)
      ensures caller == owner && op.ongoing && old(rounds) != [] && old(rounds[0].milestones) != [] && entries != [] ==>
        o == (if spreadEpoch != old(rounds[0].spreadEpoch) then Fail("Bad spread epoch")
              else match Allocate(old(rounds[0].afterPlanningAmount), old(userAssets), spreadEpoch, entries, true)
                case Err(msg) => Fail(msg)
                case Ok(_) => Pass)
      ensures distributedTokenId == old(distributedTokenId)
    {
      if caller != owner {
        return Fail("Permission denied");
      }
      if !op.ongoing {
        return Fail("Global Operation not ongoing");
      }
      if rounds == [] {
        return Fail("Empty community assets list");
      }
      if rounds[0].milestones == [] {
        return Fail("No unlock milestones set");
      }
      if entries == [] {
        return Fail("Empty assets vec");
      }
      o := AddAllUserAssetsToMap(spreadEpoch, entries, true);
    }

    /** calculate_user_assets: scans the claim window, deleting the entries it
      finds when `delete` is set. */
    method CalculateUserAssets(user: Address, locked: bool, delete: bool, now: nat)
      returns (amounts: seq<nat>, schedules: seq<seq<Milestone>>)
      modifies this
      ensures var s := Scan(ClaimWindow(old(rounds)), now, old(userAssets), user, locked, delete);
        amounts == s.amounts && schedules == s.schedules && userAssets == s.assets
      ensures !delete ==> userAssets == old(userAssets)
      ensures rounds == old(rounds) && distributedTokenId == old(distributedTokenId)
    {
      var window := rounds[..Min(MaxClaimableRounds, |rounds|)];
      amounts := [];
      schedules := [];
      var i := 0;
      while i < |window|
        invariant 0 <= i <= |window|
        invariant rounds == old(rounds) && distributedTokenId == old(distributedTokenId)
        invariant var whole := Scan(window, now, old(userAssets), user, locked, delete);
          var rest := Scan(window[i..], now, userAssets, user, locked, delete);
          whole.amounts == amounts + rest.amounts && whole.schedules == schedules + rest.schedules && whole.assets == rest.assets
      {
        assert window[i..][1..] == window[i + 1..];
        var round := window[i];
        var key := UserAssetKey(user, round.spreadEpoch, locked);
        if round.spreadEpoch <= now && key in userAssets {
          amounts := amounts + [userAssets[key]];
          schedules := schedules + [round.milestones];
          if delete {
            userAssets := userAssets - {key};
          }
        }
        i := i + 1;
      }
      assert window[i..] == [];
      if !delete {
        ViewKeepsMap(window, now, old(userAssets), user, locked);
      }
    }

    /** sum_of */
    static method SumOf(v: seq<nat>) returns (s: nat)
      ensures s == SumAmounts(v)
    {
      s := 0;
      var i := 0;
      while i < |v|
        invariant 0 <= i <= |v|
        invariant SumAmounts(v) == s + SumAmounts(v[i..])
      {
        assert v[i..][1..] == v[i + 1..];
        s := s + v[i];
        i := i + 1;
      }
      assert v[i..] == [];
    }

    /** claimAssets: outside a global operation, pays the caller every
      unlocked amount of the claim window and deletes those entries. */
    method ClaimAssets(caller: Address, now: nat) returns (r: Result<nat>, fx: seq<Effect>)
      requires Valid()
      modifies this
      ensures Valid()
      ensures op.ongoing ==> r == Err("Global Operation ongoing")
      ensures !op.ongoing && old(rounds) == [] ==> r == Err("Empty community assets list")
      ensures r.Ok? <==> !op.ongoing && old(rounds) != []
      ensures r.Err? ==> fx == [] && userAssets == old(userAssets)
      ensures r.Ok? ==> var s := Scan(ClaimWindow(old(rounds)), now, old(userAssets), caller, false, true);
        && r.value == SumAmounts(s.amounts) && userAssets == s.assets
        && fx == MintIfPositive(distributedTokenId, r.value) + TransferIfPositive(caller, distributedTokenId, 0, r.value)
      ensures rounds == old(rounds) && distributedTokenId == old(distributedTokenId)
    {
      if op.ongoing {
        return Err("Global Operation ongoing"), [];
      }
      if rounds == [] {
        return Err("Empty community assets list"), [];
      }
      var amounts, _ := CalculateUserAssets(caller, false, true, now);
      var total := SumOf(amounts);
      r := Ok(total);
      fx := MintIfPositive(distributedTokenId, total) + TransferIfPositive(caller, distributedTokenId, 0, total);
    }

    /** claimLockedAssets, as written: it deletes the caller's locked entries
      of the claim window and returns their sum, but creates and sends
      nothing (the payout line is commented out in the source). */
    method ClaimLockedAssets(caller: Address, now: nat) returns (r: Result<nat>)
      requires Valid()
      modifies this
      ensures Valid()
      ensures op.ongoing ==> r == Err("Global Operation ongoing")
      ensures !op.ongoing && old(rounds) == [] ==> r == Err("Empty community assets list")
      ensures r.Ok? <==> !op.ongoing && old(rounds) != []
      ensures r.Err? ==> userAssets == old(userAssets)
      ensures r.Ok? ==> var s := Scan(ClaimWindow(old(rounds)), now, old(userAssets), caller, true, true);
        r.value == SumAmounts(s.amounts) && userAssets == s.assets
      ensures rounds == old(rounds) && distributedTokenId == old(distributedTokenId)
    {
      if op.ongoing {
        return Err("Global Operation ongoing");
      }
      if rounds == [] {
        return Err("Empty community assets list");
      }
      var amounts, _ := CalculateUserAssets(caller, true, true, now);
      var total := SumOf(amounts);
      r := Ok(total);
    }

    /** calculateAssets / calculateLockedAssets: the same sum, without
      deleting anything. */
    method CalculateAssetsView(user: Address, locked: bool, now: nat) returns (r: Result<nat>)
      modifies this
      ensures op.ongoing ==> r == Err("Global Operation ongoing")
      ensures !op.ongoing && old(rounds) == [] ==> r == Err("Empty community assets list")
      ensures r.Ok? <==> !op.ongoing && rounds != []
      ensures r.Ok? ==> r.value == SumAmounts(Scan(ClaimWindow(old(rounds)), now, old(userAssets), user, locked, false).amounts)
      ensures rounds == old(rounds) && userAssets == old(userAssets) && distributedTokenId == old(distributedTokenId)
    {
      if op.ongoing {
        return Err("Global Operation ongoing");
      }
      if rounds == [] {
        return Err("Empty community assets list");
      }
      var amounts, _ := CalculateUserAssets(user, locked, false, now);
      var total := SumOf(amounts);
      r := Ok(total);
    }

    /** getLastCommunityDistributionAmountAndEpoch: (0, 0) for an empty list. */
    function LastDistribAmountAndEpoch(): (nat, nat)
      reads this
    {
      if rounds == [] then (0, 0) else (rounds[0].totalAmount, rounds[0].spreadEpoch)
    }

    /** getLastCommunityDistributionUnlockMilestones: empty for an empty list. */
    function LastDistribMilestones(): seq<Milestone>
      reads this
    {
      if rounds == [] then [] else rounds[0].milestones
    }

    /** get_biggest_unclaimable_asset_epoch: the spread epoch of the fifth
      round, or 0 if there is none. */
    function BiggestUnclaimableEpoch(): (e: nat)
      reads this
      ensures |rounds| <= MaxClaimableRounds ==> e == 0
      ensures |rounds| > MaxClaimableRounds ==> e == rounds[MaxClaimableRounds].spreadEpoch
    {
      if |rounds| > MaxClaimableRounds then rounds[MaxClaimableRounds].spreadEpoch else 0
    }

    /** undoLastCommunityDistribution: pops the front round. */
    method UndoLastCommunityDistrib(caller: Address) returns (o: Outcome)
      requires Valid()
      modifies this
      ensures Valid()
      ensures caller != owner ==> o == Fail("Permission denied")
      ensures caller == owner && !op.ongoing ==> o == Fail("Global Operation not ongoing")
      ensures caller == owner && op.ongoing && old(rounds) == [] ==> o == Fail("Empty community assets list")
      ensures o.Pass? <==> caller == owner && op.ongoing && old(rounds) != []
      ensures o.Pass? ==> rounds == old(rounds[1..])
      ensures o.Fail? ==> rounds == old(rounds)
      ensures userAssets == old(userAssets) && distributedTokenId == old(distributedTokenId)
    {
      if caller != owner {
        return Fail("Permission denied");
      }
      if !op.ongoing {
        return Fail("Global Operation not ongoing");
      }
      if rounds == [] {
        return Fail("Empty community assets list");
      }
      rounds := rounds[1..];
      o := Pass;
    }

    /** undoUserDistributedAssetsBetweenEpochs */
    method UndoUserAssetsBetweenEpochs(caller: Address, lower: nat, higher: nat, lowGasAt: set<nat>)
      returns (r: Result<nat>, ghost removed: set<UserAssetKey>)
      requires Valid()
      modifies this
      ensures Valid()
      ensures caller != owner ==> r == Err("Permission denied")
      ensures caller == owner && !op.ongoing ==> r == Err("Global Operation not ongoing")
      ensures caller == owner && op.ongoing && old(rounds) == [] ==> r == Err("Empty community assets list")
      ensures caller == owner && op.ongoing && old(rounds) != [] && lower > higher ==> r == Err("Bad input values")
      ensures r.Ok? <==> caller == owner && op.ongoing && old(rounds) != [] && lower <= higher
      ensures r.Err? ==> removed == {}
      ensures r.Ok? ==> r.value == |removed| && (higher == 0 ==> removed == {})
      ensures removed <= InRange(old(userAssets).Keys, lower, higher)
      ensures userAssets == old(userAssets) - removed
      ensures r.Ok? && NoEarlyStop(lowGasAt, |old(userAssets)|) ==> removed == InRange(old(userAssets).Keys, lower, higher) || higher == 0
      ensures rounds == old(rounds) && distributedTokenId == old(distributedTokenId)
    {
      removed := {};
      if caller != owner {
        return Err("Permission denied"), removed;
      }
      if !op.ongoing {
        return Err("Global Operation not ongoing"), removed;
      }
      if rounds == [] {
        return Err("Empty community assets list"), removed;
      }
      if lower > higher {
        return Err("Bad input values"), removed;
      }
      var count;
      count, removed := RemoveAssetEntriesBetweenEpochs(lower, higher, lowGasAt);
      r := Ok(count);
    }

    /** clearUnclaimableAssets: the purge of every entry up to the fifth
      round's spread epoch, with the guards of the undo endpoint. */
    method ClearUnclaimableAssets(caller: Address, lowGasAt: set<nat>)
      returns (r: Result<nat>, ghost removed: set<UserAssetKey>)
      requires Valid()
      modifies this
      ensures Valid()
      ensures caller != owner ==> r == Err("Permission denied")
      ensures caller == owner && !op.ongoing ==> r == Err("Global Operation not ongoing")
      ensures caller == owner && op.ongoing && old(rounds) == [] ==> r == Err("Empty community assets list")
      ensures r.Ok? <==> caller == owner && op.ongoing && old(rounds) != []
      ensures r.Err? ==> removed == {}
      ensures var e := old(BiggestUnclaimableEpoch());
        && removed <= InRange(old(userAssets).Keys, 0, e)
        && userAssets == old(userAssets) - removed
        && (r.Ok? ==> r.value == |removed| && (e == 0 ==> removed == {}))
        && (r.Ok? && NoEarlyStop(lowGasAt, |old(userAssets)|) ==> removed == InRange(old(userAssets).Keys, 0, e) || e == 0)
      ensures rounds == old(rounds) && distributedTokenId == old(distributedTokenId)
    {
      var e := BiggestUnclaimableEpoch();
      r, removed := UndoUserAssetsBetweenEpochs(caller, 0, e, lowGasAt);
    }

    /** remove_asset_entries_between_epochs: nothing when higher is 0 or below
      lower; otherwise the keys in [lower, higher] met before a gas check
      stops the walk are removed, and their number is returned. */
    method RemoveAssetEntriesBetweenEpochs(lower: nat, higher: nat, lowGasAt: set<nat>)
      returns (count: nat, ghost removed: set<UserAssetKey>)
      modifies this
      ensures higher == 0 || higher < lower ==> removed == {}
      ensures removed <= InRange(old(userAssets).Keys, lower, higher)
      ensures userAssets == old(userAssets) - removed && count == |removed|
      ensures NoEarlyStop(lowGasAt, |old(userAssets)|) && higher != 0 ==> removed == InRange(old(userAssets).Keys, lower, higher)
      ensures rounds == old(rounds) && distributedTokenId == old(distributedTokenId)
    {
      removed := {};
      if higher == 0 {
        return 0, removed;
      }
      if higher < lower {
        return 0, removed;
      }
      var toRemove := CollectInRange(userAssets.Keys, lower, higher, lowGasAt);
      DistinctCard(toRemove);
      RemoveKeys(toRemove);
      removed := Elems(toRemove);
      count := |toRemove|;
    }

    /** The removal loop of remove_asset_entries_between_epochs. */
    method RemoveKeys(keys: seq<UserAssetKey>)
      modifies this
      ensures userAssets == old(userAssets) - Elems(keys)
      ensures rounds == old(rounds) && distributedTokenId == old(distributedTokenId)
    {
      var j := 0;
      while j < |keys|
        invariant 0 <= j <= |keys|
        invariant rounds == old(rounds) && distributedTokenId == old(distributedTokenId)
        invariant userAssets == old(userAssets) - Elems(keys[..j])
      {
        assert keys[..j + 1] == keys[..j] + [keys[j]];
        ElemsSnoc(keys[..j], keys[j]);
        userAssets := userAssets - {keys[j]};
        j := j + 1;
      }
      assert keys[..j] == keys;
    }
  }

  /** The elements of a sequence of keys. */
  function Elems(s: seq<UserAssetKey>): set<UserAssetKey>
  {
    set k | k in s
  }

  predicate Distinct(s: seq<UserAssetKey>)
  {
    forall a, b :: 0 <= a < b < |s| ==> s[a] != s[b]
  }

  /** No gas check before the `n`th key reports low gas. */
  predicate NoEarlyStop(lowGasAt: set<nat>, n: nat)
  {
    forall i :: i in lowGasAt && i < n ==> (i + 1) % GasCheckFrequency != 0
  }

  /** The walk of remove_asset_entries_between_epochs over the keys, in an
    order the host chooses: before the key at index i it stops if
    (i + 1) is a multiple of the gas-check frequency and `lowGasAt` says
    the gas left is below half of what it was. */
  method CollectInRange(keys: set<UserAssetKey>, lower: nat, higher: nat, lowGasAt: set<nat>)
    returns (found: seq<UserAssetKey>)
    ensures Distinct(found)
    ensures Elems(found) <= InRange(keys, lower, higher)
    ensures NoEarlyStop(lowGasAt, |keys|) ==> Elems(found) == InRange(keys, lower, higher)
  {
    found := [];
    var unvisited := keys;
    ghost var visited: set<UserAssetKey> := {};
    var index := 0;
    while unvisited != {}
      invariant unvisited + visited == keys && unvisited !! visited
      invariant index == |visited| && index + |unvisited| == |keys|
      invariant Elems(found) == InRange(keys, lower, higher) * visited
      invariant Distinct(found)
      decreases unvisited
    {
      if (index + 1) % GasCheckFrequency == 0 && index in lowGasAt {
        assert !NoEarlyStop(lowGasAt, |keys|);
        return;
      }
      var key :| key in unvisited;
      CollectStep(keys, lower, higher, visited, found, key);
      if lower <= key.spreadEpoch <= higher {
        found := found + [key];
      }
      unvisited := unvisited - {key};
      visited := visited + {key};
      index := index + 1;
    }
  }

  // ---------------------------------------------------------------------
  // Lemmas

  /** One key of the walk: what it adds to the found keys, and that they
      stay distinct. */
  lemma CollectStep(keys: set<UserAssetKey>, lower: nat, higher: nat, visited: set<UserAssetKey>, found: seq<UserAssetKey>, key: UserAssetKey)
    requires key in keys && key !in visited
    requires Elems(found) == InRange(keys, lower, higher) * visited && Distinct(found)
    ensures lower <= key.spreadEpoch <= higher ==>
      Elems(found + [key]) == InRange(keys, lower, higher) * (visited + {key}) && Distinct(found + [key])
    ensures !(lower <= key.spreadEpoch <= higher) ==> Elems(found) == InRange(keys, lower, higher) * (visited + {key})
  {
    ElemsSnoc(found, key);
    if lower <= key.spreadEpoch <= higher {
      var f := found + [key];
      forall a, b | 0 <= a < b < |f|
        ensures f[a] != f[b]
      {
        if b == |found| {
          assert f[a] == found[a] && f[a] in Elems(found);
        } else {
          assert f[a] == found[a] && f[b] == found[b];
        }
      }
    }
  }

  lemma ElemsSnoc(s: seq<UserAssetKey>, x: UserAssetKey)
    ensures Elems(s + [x]) == Elems(s) + {x}
  {
    assert forall k :: k in s + [x] <==> k in s || k == x;
  }

  /** A sequence without repetitions has as many elements as its set. */
  lemma {:induction false} DistinctCard(s: seq<UserAssetKey>)
    requires Distinct(s)
    ensures |Elems(s)| == |s|
  {
    if s != [] {
      var t := s[1..];
      assert Distinct(t) by {
        forall a, b | 0 <= a < b < |t|
          ensures t[a] != t[b]
        {
          assert t[a] == s[a + 1] && t[b] == s[b + 1];
        }
      }
      DistinctCard(t);
      assert s == [s[0]] + t;
      assert Elems(s) == Elems(t) + {s[0]};
      forall b | 0 <= b < |t|
        ensures t[b] != s[0]
      {
        assert t[b] == s[b + 1];
      }
      assert s[0] !in Elems(t);
    }
  }

  /** A round pushed at the front with a later spread epoch than the old
      front keeps the list chronological, and a new round has nothing
      allocated. */
  lemma NewFrontKeepsOrder(rounds: seq<CommunityDistribution>, newRound: CommunityDistribution)
    requires Chronological(rounds) && WithinTotal(rounds)
    requires FrontSpread(rounds) < newRound.spreadEpoch && newRound.afterPlanningAmount == newRound.totalAmount
    ensures Chronological([newRound] + rounds) && WithinTotal([newRound] + rounds)
  {
    var rs := [newRound] + rounds;
    forall i, j | 0 <= i < j < |rs|
      ensures rs[i].spreadEpoch > rs[j].spreadEpoch
    {
      if i == 0 && j > 1 {
        assert rounds[0].spreadEpoch > rounds[j - 1].spreadEpoch;
      }
    }
  }

  /** Both validations of this repository accept the same schedules: a sum of
      100 already bounds each percent by 100. */
  lemma {:induction false} ValidationVariantsAgree(ms: seq<Milestone>)
    ensures ValidateDistributionSchedule(ms).Pass? <==> Schedule.ValidSchedule(ms)
  {
    Schedule.ValidScheduleCharacterization(ms);
    OrderCheckPasses(0, ms);
    if ms != [] && Schedule.SumPercents(ms) == 100 {
      forall i | 0 <= i < |ms|
        ensures ms[i].percent <= 100
      {
        Schedule.PercentAtMostSum(ms, i);
      }
    }
  }

  lemma {:induction false} OrderCheckPasses(last: nat, ms: seq<Milestone>)
    decreases ms
    ensures OrderCheck(last, ms).Pass? <==> (Schedule.Increasing(ms) && (ms != [] ==> ms[0].epoch > last))
  {
    if ms != [] {
      OrderCheckPasses(ms[0].epoch, ms[1..]);
      if Schedule.Increasing(ms) && ms[0].epoch > last {
        assert Schedule.Increasing(ms[1..]);
        if |ms| > 1 {
          assert ms[1..][0] == ms[1];
        }
      }
      if OrderCheck(last, ms).Pass? {
        forall i, j | 0 <= i < j < |ms|
          ensures ms[i].epoch < ms[j].epoch
        {
          if i == 0 {
            if j > 1 {
              assert ms[1..][0].epoch < ms[1..][j - 1].epoch;
            }
          } else {
            assert ms[1..][i - 1] == ms[i] && ms[1..][j - 1] == ms[j];
          }
        }
      }
    }
  }

  /** Allocation succeeds exactly when the amounts fit in the remaining
      amount, the users are distinct and none already has an entry for this
      round and flag. */
  lemma {:induction false} AllocateSucceedsIff(after: nat, m: map<UserAssetKey, nat>, spreadEpoch: nat, entries: seq<UserAsset>, locked: bool)
    decreases entries
    ensures Allocate(after, m, spreadEpoch, entries, locked).Ok? <==>
      (TotalAllocated(entries) <= after && DistinctUsers(entries)
       && forall i :: 0 <= i < |entries| ==> UserAssetKey(entries[i].user, spreadEpoch, locked) !in m)
  {
    if entries != [] {
      var e := entries[0];
      var key := UserAssetKey(e.user, spreadEpoch, locked);
      var tail := entries[1..];
      if e.amount <= after && key !in m {
        AllocateSucceedsIff(after - e.amount, m[key := e.amount], spreadEpoch, tail, locked);
      }
      var unused := forall i :: 0 <= i < |entries| ==> UserAssetKey(entries[i].user, spreadEpoch, locked) !in m;
      if TotalAllocated(entries) <= after && DistinctUsers(entries) && unused {
        assert DistinctUsers(tail) by {
          forall a, b | 0 <= a < b < |tail|
            ensures tail[a].user != tail[b].user
          {
            assert tail[a] == entries[a + 1] && tail[b] == entries[b + 1];
          }
        }
        forall i | 0 <= i < |tail|
          ensures UserAssetKey(tail[i].user, spreadEpoch, locked) !in m[key := e.amount]
        {
          assert tail[i] == entries[i + 1];
        }
      }
      if Allocate(after, m, spreadEpoch, entries, locked).Ok? {
        forall i | 0 <= i < |entries|
          ensures UserAssetKey(entries[i].user, spreadEpoch, locked) !in m
        {
          if i > 0 {
            assert tail[i - 1] == entries[i];
          }
        }
        forall a, b | 0 <= a < b < |entries|
          ensures entries[a].user != entries[b].user
        {
          if a == 0 {
            assert tail[b - 1] == entries[b];
          } else {
            assert tail[a - 1] == entries[a] && tail[b - 1] == entries[b];
          }
        }
      }
    }
  }

  /** A successful allocation draws exactly the allocated total from the
      remaining amount, keeps every existing entry and adds one entry per
      user holding that user's amount. */
  lemma {:induction false} AllocateConserves(after: nat, m: map<UserAssetKey, nat>, spreadEpoch: nat, entries: seq<UserAsset>, locked: bool)
    requires Allocate(after, m, spreadEpoch, entries, locked).Ok?
    decreases entries
    ensures var a := Allocate(after, m, spreadEpoch, entries, locked).value;
      && a.after + TotalAllocated(entries) == after
      && a.assets.Keys == m.Keys + EntryKeys(entries, spreadEpoch, locked)
      && (forall k :: k in m ==> a.assets[k] == m[k])
      && (forall i :: 0 <= i < |entries| ==> a.assets[UserAssetKey(entries[i].user, spreadEpoch, locked)] == entries[i].amount)
  {
    if entries != [] {
      var e := entries[0];
      var key := UserAssetKey(e.user, spreadEpoch, locked);
      var tail := entries[1..];
      AllocateConserves(after - e.amount, m[key := e.amount], spreadEpoch, tail, locked);
      var a := Allocate(after, m, spreadEpoch, entries, locked).value;
      assert EntryKeys(entries, spreadEpoch, locked) == {key} + EntryKeys(tail, spreadEpoch, locked) by {
        forall k | k in EntryKeys(entries, spreadEpoch, locked)
          ensures k in {key} + EntryKeys(tail, spreadEpoch, locked)
        {
          var i :| 0 <= i < |entries| && k == UserAssetKey(entries[i].user, spreadEpoch, locked);
          if i > 0 {
            assert tail[i - 1] == entries[i];
          }
        }
        forall k | k in EntryKeys(tail, spreadEpoch, locked)
          ensures k in EntryKeys(entries, spreadEpoch, locked)
        {
          var i :| 0 <= i < |tail| && k == UserAssetKey(tail[i].user, spreadEpoch, locked);
          assert tail[i] == entries[i + 1];
        }
      }
      forall i | 0 <= i < |entries|
        ensures a.assets[UserAssetKey(entries[i].user, spreadEpoch, locked)] == entries[i].amount
      {
        if i > 0 {
          assert tail[i - 1] == entries[i];
        }
      }
    }
  }

  /** The scan keeps only entries, never adds one, and a non-deleting scan
      leaves the map as it is. */
  lemma {:induction false} ScanShrinks(rs: seq<CommunityDistribution>, now: nat, m: map<UserAssetKey, nat>, user: Address, locked: bool, delete: bool)
    ensures Scan(rs, now, m, user, locked, delete).assets.Keys <= m.Keys
    ensures forall k :: k in Scan(rs, now, m, user, locked, delete).assets ==> Scan(rs, now, m, user, locked, delete).assets[k] == m[k]
    ensures |Scan(rs, now, m, user, locked, delete).amounts| == |Scan(rs, now, m, user, locked, delete).schedules| <= |rs|
  {
    if rs != [] {
      var key := UserAssetKey(user, rs[0].spreadEpoch, locked);
      ScanShrinks(rs[1..], now, m, user, locked, delete);
      ScanShrinks(rs[1..], now, m - {key}, user, locked, delete);
    }
  }

  lemma {:induction false} ViewKeepsMap(rs: seq<CommunityDistribution>, now: nat, m: map<UserAssetKey, nat>, user: Address, locked: bool)
    ensures Scan(rs, now, m, user, locked, false).assets == m
  {
    if rs != [] {
      ViewKeepsMap(rs[1..], now, m, user, locked);
    }
  }

  /** After a deleting scan, none of its rounds' spread entries remain. */
  lemma {:induction false} ScanClears(rs: seq<CommunityDistribution>, now: nat, m: map<UserAssetKey, nat>, user: Address, locked: bool)
    ensures forall j :: 0 <= j < |rs| && rs[j].spreadEpoch <= now ==>
      UserAssetKey(user, rs[j].spreadEpoch, locked) !in Scan(rs, now, m, user, locked, true).assets
  {
    if rs != [] {
      var key := UserAssetKey(user, rs[0].spreadEpoch, locked);
      var m' := if rs[0].spreadEpoch <= now && key in m then m - {key} else m;
      ScanClears(rs[1..], now, m', user, locked);
      ScanShrinks(rs[1..], now, m', user, locked, true);
      forall j | 0 < j < |rs|
        ensures rs[j] == rs[1..][j - 1]
      {
      }
    }
  }

  /** A scan over rounds none of whose entries is in the map finds nothing. */
  lemma {:induction false} ScanFindsNothing(rs: seq<CommunityDistribution>, now: nat, m: map<UserAssetKey, nat>, user: Address, locked: bool, delete: bool)
    requires forall j :: 0 <= j < |rs| && rs[j].spreadEpoch <= now ==> UserAssetKey(user, rs[j].spreadEpoch, locked) !in m
    ensures Scan(rs, now, m, user, locked, delete).amounts == []
  {
    if rs != [] {
      forall j | 0 <= j < |rs[1..]| && rs[1..][j].spreadEpoch <= now
        ensures UserAssetKey(user, rs[1..][j].spreadEpoch, locked) !in m
      {
        assert rs[1..][j] == rs[j + 1];
      }
      ScanFindsNothing(rs[1..], now, m, user, locked, delete);
    }
  }

  /** A second claim right after a claim, at the same epoch and with the
      same list, finds nothing: the first one deleted what it found. */
  lemma ClaimTwiceFindsNothing(rounds: seq<CommunityDistribution>, now: nat, m: map<UserAssetKey, nat>, user: Address, locked: bool, delete: bool)
    ensures var first := Scan(ClaimWindow(rounds), now, m, user, locked, true);
      Scan(ClaimWindow(rounds), now, first.assets, user, locked, delete).amounts == []
  {
    var w := ClaimWindow(rounds);
    ScanClears(w, now, m, user, locked);
    ScanFindsNothing(w, now, Scan(w, now, m, user, locked, true).assets, user, locked, delete);
  }

  /** Removing a key that no round of `rs` looks up does not change what a
      non-deleting scan finds. */
  lemma {:induction false} ScanIgnoresOtherKeys(rs: seq<CommunityDistribution>, now: nat, m: map<UserAssetKey, nat>, user: Address, locked: bool, gone: UserAssetKey)
    requires forall j :: 0 <= j < |rs| ==> UserAssetKey(user, rs[j].spreadEpoch, locked) != gone
    ensures Scan(rs, now, m - {gone}, user, locked, false).amounts == Scan(rs, now, m, user, locked, false).amounts
    ensures Scan(rs, now, m - {gone}, user, locked, false).schedules == Scan(rs, now, m, user, locked, false).schedules
  {
    if rs != [] {
      forall j | 0 <= j < |rs[1..]|
        ensures UserAssetKey(user, rs[1..][j].spreadEpoch, locked) != gone
      {
        assert rs[1..][j] == rs[j + 1];
      }
      ScanIgnoresOtherKeys(rs[1..], now, m, user, locked, gone);
      var key := UserAssetKey(user, rs[0].spreadEpoch, locked);
      assert key != gone;
      assert (key in m - {gone}) == (key in m);
    }
  }

  /** On a chronological list the views report exactly what the claims find:
      deleting during the scan never hides a later round's entry. */
  lemma {:induction false} ViewMatchesClaim(rs: seq<CommunityDistribution>, now: nat, m: map<UserAssetKey, nat>, user: Address, locked: bool)
    requires Chronological(rs)
    ensures Scan(rs, now, m, user, locked, false).amounts == Scan(rs, now, m, user, locked, true).amounts
    ensures Scan(rs, now, m, user, locked, false).schedules == Scan(rs, now, m, user, locked, true).schedules
  {
    if rs != [] {
      var key := UserAssetKey(user, rs[0].spreadEpoch, locked);
      var tail := rs[1..];
      assert Chronological(tail);
      if rs[0].spreadEpoch <= now && key in m {
        ViewMatchesClaim(tail, now, m - {key}, user, locked);
        forall j | 0 <= j < |tail|
          ensures UserAssetKey(user, tail[j].spreadEpoch, locked) != key
        {
          assert tail[j] == rs[j + 1];
        }
        ScanIgnoresOtherKeys(tail, now, m, user, locked, key);
      } else {
        ViewMatchesClaim(tail, now, m, user, locked);
      }
    }
  }

  /** The claim window of a chronological list lies strictly after the
      biggest unclaimable epoch, so clearing up to that epoch spares every
      entry a claim can reach. */
  lemma ClearSparesClaimWindow(d: EsdtDistribution)
    requires Chronological(d.rounds)
    ensures d.BiggestUnclaimableEpoch() == 0 ||
      forall j :: 0 <= j < |ClaimWindow(d.rounds)| ==> ClaimWindow(d.rounds)[j].spreadEpoch > d.BiggestUnclaimableEpoch()
  {
  }
}
