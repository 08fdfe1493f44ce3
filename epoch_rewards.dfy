/** The epoch-reward table that sc-locked-rewards/src/lib.rs and
    sc-dex-rewards-lock/src/lib.rs both keep in storage "epochRewardsMap":
    a map from a number of epochs to a reward percentage, filled from the
    (epoch, percentage) pairs given at deployment and edited by the owner
    one epoch at a time. */
module EpochRewards {
  import opened Common

  type Rewards = map<nat, nat>

  /** The map that inserting `pairs` in order into an empty map leaves:
      a later pair for the same epoch overwrites an earlier one. */
  function RewardsFromPairs(pairs: seq<(nat, nat)>): Rewards
  {
    if pairs == [] then map[]
    else RewardsFromPairs(pairs[..|pairs| - 1])[pairs[|pairs| - 1].0 := pairs[|pairs| - 1].1]
  }

  /** addEpochReward on the map: refused for an epoch already present. */
  function AddReward(m: Rewards, epoch: nat, percentage: nat): (r: Result<Rewards>)
    ensures r.Err? <==> epoch in m
    ensures r.Err? ==> r.msg == "There is already a reward set for that epoch"
    ensures r.Ok? ==> (epoch in r.value && r.value[epoch] == percentage
      && forall e :: e != epoch ==> (e in r.value <==> e in m) && (e in m ==> r.value[e] == m[e]))
  {
    if epoch in m then Err("There is already a reward set for that epoch") else Ok(m[epoch := percentage])
  }

  /** removeEpochReward on the map: refused for an epoch not present. */
  function RemoveReward(m: Rewards, epoch: nat): (r: Result<Rewards>)
    ensures r.Err? <==> epoch !in m
    ensures r.Err? ==> r.msg == "There is no reward set for that epoch"
    ensures r.Ok? ==> (epoch !in r.value
      && forall e :: e != epoch ==> (e in r.value <==> e in m) && (e in m ==> r.value[e] == m[e]))
  {
    if epoch !in m then Err("There is no reward set for that epoch") else Ok(m - {epoch})
  }

  /** The reward views: the stored percentage, or zero for an epoch with
      none. */
  function RewardFor(m: Rewards, epoch: nat): nat
  {
    if epoch in m then m[epoch] else 0
  }

  class RewardTable {
    /** Storage "epochRewardsMap". */
    var rewards: Rewards

    /** The loop of init: every pair inserted in order. */
    constructor (pairs: seq<(nat, nat)>)
      ensures rewards == RewardsFromPairs(pairs)
    {
      var m: Rewards := map[];
      var i := 0;
      while i < |pairs|
        invariant 0 <= i <= |pairs|
        invariant m == RewardsFromPairs(pairs[..i])
      {
        assert pairs[..i + 1][..i] == pairs[..i];
        m := m[pairs[i].0 := pairs[i].1];
        i := i + 1;
      }
      assert pairs[..|pairs|] == pairs;
      rewards := m;
    }

    /** addEpochReward: owner-only, then AddReward. */
    method AddEpochReward(isOwner: bool, epoch: nat, percentage: nat) returns (o: Outcome)
      modifies this
      ensures !isOwner ==> o == Fail("Only owner may call this function") && rewards == old(rewards)
      ensures isOwner ==> (var r := AddReward(old(rewards), epoch, percentage);
        if r.Ok? then o == Pass && rewards == r.value else o == Fail(r.msg) && rewards == old(rewards))
    {
      if !isOwner {
        return Fail("Only owner may call this function");
      }
      if epoch in rewards {
        return Fail("There is already a reward set for that epoch");
      }
      rewards := rewards[epoch := percentage];
      o := Pass;
    }

    /** removeEpochReward: owner-only, then RemoveReward. */
    method RemoveEpochReward(isOwner: bool, epoch: nat) returns (o: Outcome)
      modifies this
      ensures !isOwner ==> o == Fail("Only owner may call this function") && rewards == old(rewards)
      ensures isOwner ==> (var r := RemoveReward(old(rewards), epoch);
        if r.Ok? then o == Pass && rewards == r.value else o == Fail(r.msg) && rewards == old(rewards))
    {
      if !isOwner {
        return Fail("Only owner may call this function");
      }
      if epoch !in rewards {
        return Fail("There is no reward set for that epoch");
      }
      rewards := rewards - {epoch};
      o := Pass;
    }
  }

  // ---------------------------------------------------------------------
  // Lemmas

  /** The table built at deployment holds exactly the epochs of the pairs,
      and for each epoch the percentage of its last pair. */
  lemma {:induction false} LastPairWins(pairs: seq<(nat, nat)>)
    ensures forall e :: e in RewardsFromPairs(pairs) <==> exists i :: 0 <= i < |pairs| && pairs[i].0 == e
    ensures forall i :: 0 <= i < |pairs| && (forall j :: i < j < |pairs| ==> pairs[j].0 != pairs[i].0) ==>
      RewardsFromPairs(pairs)[pairs[i].0] == pairs[i].1
  {
    if pairs != [] {
      var n := |pairs| - 1;
      var front := pairs[..n];
      LastPairWins(front);
      forall e
        ensures e in RewardsFromPairs(pairs) <==> exists i :: 0 <= i < |pairs| && pairs[i].0 == e
      {
        if e in RewardsFromPairs(front) {
          var i :| 0 <= i < |front| && front[i].0 == e;
          assert pairs[i].0 == e;
        }
        if e == pairs[n].0 {
          assert pairs[n].0 == e;
        }
        if exists i :: 0 <= i < |pairs| && pairs[i].0 == e {
          var i :| 0 <= i < |pairs| && pairs[i].0 == e;
          if i < n {
            assert front[i].0 == e;
          }
        }
      }
      forall i | 0 <= i < |pairs| && (forall j :: i < j < |pairs| ==> pairs[j].0 != pairs[i].0)
        ensures RewardsFromPairs(pairs)[pairs[i].0] == pairs[i].1
      {
        if i < n {
          assert pairs[n].0 != pairs[i].0;
          assert front[i] == pairs[i];
          assert forall j :: i < j < |front| ==> front[j].0 != front[i].0 by {
            forall j | i < j < |front|
              ensures front[j].0 != front[i].0
            {
              assert front[j] == pairs[j];
            }
          }
        }
      }
    }
  }

  /** Adding a reward for a new epoch and removing it again restores the
      table, and the view then reads zero for that epoch. */
  lemma AddThenRemove(m: Rewards, epoch: nat, percentage: nat)
    requires epoch !in m
    ensures AddReward(m, epoch, percentage).Ok?
    ensures RewardFor(AddReward(m, epoch, percentage).value, epoch) == percentage
    ensures RemoveReward(AddReward(m, epoch, percentage).value, epoch) == Ok(m)
    ensures RewardFor(m, epoch) == 0
  {
    assert m[epoch := percentage] - {epoch} == m;
  }
}
