/** The unlock-schedule engine that common/modules/src/locked_asset.rs,
    sc-locked-asset-factory/src/locked_asset.rs and
    sc-distribution-rs/src/locked_asset.rs each carry a copy of:
    the unlocked percent at an epoch, the unlocked amount, the residual
    schedule after a partial unlock, and the factory's schedule validation.

    Percents are unbounded naturals: the u8 accumulators of the source are
    summed without wrap-around, a u64/u8 subtraction below zero aborts, and
    the truncating `as u8` cast of a rescaled percent is written out. */
module Schedule {
  import opened Common

  // ---------------------------------------------------------------------
  // Specification functions

  function SumPercents(ms: seq<Milestone>): nat
  {
    if ms == [] then 0 else ms[0].percent + SumPercents(ms[1..])
  }

  /** The milestones that have matured at `now` (epoch strictly below it). */
  function Matured(now: nat, ms: seq<Milestone>): seq<Milestone>
  {
    if ms == [] then []
    else (if ms[0].epoch < now then [ms[0]] else []) + Matured(now, ms[1..])
  }

  /** The milestones that have not matured at `now`, in their order. */
  function Kept(now: nat, ms: seq<Milestone>): seq<Milestone>
  {
    if ms == [] then []
    else (if ms[0].epoch >= now then [ms[0]] else []) + Kept(now, ms[1..])
  }

  /** The percent released at `now`: the matured milestones' percents. */
  function UnlockedPercent(now: nat, ms: seq<Milestone>): nat
  {
    SumPercents(Matured(now, ms))
  }

  /** Each kept percent becomes `percent * 100 / remaining`, cast to u8. */
  function Rescale(ks: seq<Milestone>, remaining: nat): seq<Milestone>
    requires remaining > 0
  {
    if ks == [] then []
    else [Milestone(ks[0].epoch, (ks[0].percent * 100 / remaining) % 256)] + Rescale(ks[1..], remaining)
  }

  /** The rounding shortfall `100 - sum` is added to element 0. */
  function AddShortfall(rs: seq<Milestone>): seq<Milestone>
    requires rs != [] && SumPercents(rs) <= 100
  {
    rs[0 := rs[0].(percent := rs[0].percent + (100 - SumPercents(rs)))]
  }

  /** What create_new_unlock_milestones returns, or the panic it aborts with. */
  function NewUnlockMilestones(now: nat, ms: seq<Milestone>): Result<seq<Milestone>>
  {
    var unlocked := UnlockedPercent(now, ms);
    if unlocked > 100 then Err(Underflow)
    else if unlocked == 100 then Ok([])
    else
      var rescaled := Rescale(Kept(now, ms), 100 - unlocked);
      if rescaled == [] then Err(IndexOutOfBounds)
      else if SumPercents(rescaled) > 100 then Err(Underflow)
      else Ok(AddShortfall(rescaled))
  }

  predicate Increasing(ms: seq<Milestone>)
  {
    forall i, j :: 0 <= i < j < |ms| ==> ms[i].epoch < ms[j].epoch
  }

  predicate PercentsAtMost100(ms: seq<Milestone>)
  {
    forall i :: 0 <= i < |ms| ==> ms[i].percent <= 100
  }

  /** The per-milestone checks of validate_unlock_milestones, in their order,
      `last` being the previous epoch (0 before the first milestone). */
  function MilestoneCheck(last: nat, ms: seq<Milestone>): Outcome
    decreases ms
  {
    if ms == [] then Pass
    else if ms[0].epoch <= last then Fail("Unlock epochs not in order")
    else if ms[0].percent > 100 then Fail("Unlock percent more than 100")
    else MilestoneCheck(ms[0].epoch, ms[1..])
  }

  /** The verdict of the factory's validate_unlock_milestones. */
  function ValidateSchedule(ms: seq<Milestone>): Outcome
  {
    match MilestoneCheck(0, ms)
    case Fail(e) => Fail(e)
    case Pass => if ms != [] && SumPercents(ms) != 100 then Fail("Percents do not sum up to 100") else Pass
  }

  predicate ValidSchedule(ms: seq<Milestone>)
  {
    ValidateSchedule(ms).Pass?
  }

  // ---------------------------------------------------------------------
  // The engine as the source computes it

  /** get_unlock_amount: floor(amount * unlocked percent / 100). */
  function GetUnlockAmount(amount: nat, now: nat, ms: seq<Milestone>): (r: nat)
    ensures r * 100 <= amount * UnlockedPercent(now, ms) < r * 100 + 100
    ensures UnlockedPercent(now, ms) <= 100 ==> r <= amount
    ensures ms == [] ==> r == 0
  {
    var pct := UnlockedPercent(now, ms);
    FloorDiv(amount * pct, 100);
    UnlockAmountBound(amount, pct);
    amount * pct / 100
  }

  /** get_unlock_percent: sums the percents of milestones with epoch < now. */
  method GetUnlockPercent(now: nat, ms: seq<Milestone>) returns (p: nat)
    ensures p == UnlockedPercent(now, ms)
  {
    p := 0;
    var i := 0;
    while i < |ms|
      invariant 0 <= i <= |ms|
      invariant p == UnlockedPercent(now, ms[..i])
    {
      assert ms[..i + 1] == ms[..i] + [ms[i]];
      MaturedAppend(now, ms[..i], [ms[i]]);
      SumPercentsAppend(Matured(now, ms[..i]), Matured(now, [ms[i]]));
      if ms[i].epoch < now {
        p := p + ms[i].percent;
      }
      i := i + 1;
    }
    assert ms[..|ms|] == ms;
  }

  /** create_new_unlock_milestones: keep the unmatured milestones, rescale
      them, then patch element 0 with the shortfall. */
  method CreateNewUnlockMilestones(now: nat, previous: seq<Milestone>) returns (r: Result<seq<Milestone>>)
    ensures r == NewUnlockMilestones(now, previous)
  {
    var unlocked := GetUnlockPercent(now, previous);
    if unlocked > 100 {
      return Err(Underflow);
    }
    var remaining := 100 - unlocked;
    if remaining == 0 {
      return Ok([]);
    }
    var ms: seq<Milestone> := [];
    var i := 0;
    while i < |previous|
      invariant 0 <= i <= |previous|
      invariant ms == Rescale(Kept(now, previous[..i]), remaining)
    {
      assert previous[..i + 1] == previous[..i] + [previous[i]];
      KeptAppend(now, previous[..i], [previous[i]]);
      RescaleAppend(Kept(now, previous[..i]), Kept(now, [previous[i]]), remaining);
      if previous[i].epoch >= now {
        ms := ms + [Milestone(previous[i].epoch, (previous[i].percent * 100 / remaining) % 256)];
      }
      i := i + 1;
    }
    assert previous[..|previous|] == previous;
    var sum := 0;
    var j := 0;
    while j < |ms|
      invariant 0 <= j <= |ms|
      invariant sum == SumPercents(ms[..j])
    {
      assert ms[..j + 1] == ms[..j] + [ms[j]];
      SumPercentsAppend(ms[..j], [ms[j]]);
      sum := sum + ms[j].percent;
      j := j + 1;
    }
    assert ms[..|ms|] == ms;
    if sum > 100 {
      return Err(Underflow);
    }
    if |ms| == 0 {
      return Err(IndexOutOfBounds);
    }
    ms := ms[0 := ms[0].(percent := ms[0].percent + (100 - sum))];
    r := Ok(ms);
  }

  /** validate_unlock_milestones of the factory: epochs strictly increasing
      from 0, every percent at most 100, a non-empty schedule sums to 100. */
  method ValidateUnlockMilestones(ms: seq<Milestone>) returns (o: Outcome)
    ensures o == ValidateSchedule(ms)
  {
    var sum := 0;
    var last := 0;
    var i := 0;
    while i < |ms|
      invariant 0 <= i <= |ms|
      invariant sum == SumPercents(ms[..i])
      invariant MilestoneCheck(0, ms) == MilestoneCheck(last, ms[i..])
    {
      assert ms[i..][1..] == ms[i + 1..];
      if ms[i].epoch <= last {
        return Fail("Unlock epochs not in order");
      }
      if ms[i].percent > 100 {
        return Fail("Unlock percent more than 100");
      }
      assert ms[..i + 1] == ms[..i] + [ms[i]];
      SumPercentsAppend(ms[..i], [ms[i]]);
      last := ms[i].epoch;
      sum := sum + ms[i].percent;
      i := i + 1;
    }
    assert ms[..|ms|] == ms;
    if |ms| != 0 && sum != 100 {
      return Fail("Percents do not sum up to 100");
    }
    o := Pass;
  }

  // ---------------------------------------------------------------------
  // Arithmetic helpers

  lemma FloorDiv(x: nat, d: nat)
    requires d > 0
    ensures (x / d) * d <= x < (x / d) * d + d
  {
  }

  lemma MulMonotone(a: nat, p: nat, q: nat)
    requires p <= q
    ensures a * p <= a * q
  {
  }

  lemma UnlockAmountBound(amount: nat, pct: nat)
    ensures pct <= 100 ==> amount * pct / 100 <= amount
  {
    if pct <= 100 {
      MulMonotone(amount, pct, 100);
    }
  }

  /** A percent at most `remaining` rescales to at most 100. */
  lemma RescaledAtMost100(p: nat, remaining: nat)
    requires 0 < remaining && p <= remaining
    ensures p * 100 / remaining <= 100
  {
    var f := p * 100 / remaining;
    FloorDiv(p * 100, remaining);
    MulMonotone(100, p, remaining);
    if f > 100 {
      MulMonotone(remaining, 101, f);
      assert false;
    }
  }

  // ---------------------------------------------------------------------
  // Structural lemmas

  lemma {:induction false} SumPercentsAppend(a: seq<Milestone>, b: seq<Milestone>)
    ensures SumPercents(a + b) == SumPercents(a) + SumPercents(b)
  {
    if a == [] {
      assert a + b == b;
    } else {
      assert (a + b)[1..] == a[1..] + b;
      SumPercentsAppend(a[1..], b);
    }
  }

  lemma {:induction false} MaturedAppend(now: nat, a: seq<Milestone>, b: seq<Milestone>)
    ensures Matured(now, a + b) == Matured(now, a) + Matured(now, b)
  {
    if a == [] {
      assert a + b == b;
    } else {
      assert (a + b)[1..] == a[1..] + b;
      MaturedAppend(now, a[1..], b);
    }
  }

  lemma {:induction false} KeptAppend(now: nat, a: seq<Milestone>, b: seq<Milestone>)
    ensures Kept(now, a + b) == Kept(now, a) + Kept(now, b)
  {
    if a == [] {
      assert a + b == b;
    } else {
      var h := if a[0].epoch >= now then [a[0]] else [];
      assert (a + b)[0] == a[0];
      assert (a + b)[1..] == a[1..] + b;
      KeptAppend(now, a[1..], b);
      calc {
        Kept(now, a + b);
        h + Kept(now, a[1..] + b);
        h + (Kept(now, a[1..]) + Kept(now, b));
        (h + Kept(now, a[1..])) + Kept(now, b);
      }
    }
  }

  lemma {:induction false} RescaleAppend(a: seq<Milestone>, b: seq<Milestone>, remaining: nat)
    requires remaining > 0
    ensures Rescale(a + b, remaining) == Rescale(a, remaining) + Rescale(b, remaining)
  {
    if a == [] {
      assert a + b == b;
    } else {
      assert (a + b)[1..] == a[1..] + b;
      RescaleAppend(a[1..], b, remaining);
    }
  }

  /** Rescaling keeps the length and every epoch, and rescales each percent. */
  lemma {:induction false} RescaleShape(ks: seq<Milestone>, remaining: nat)
    requires remaining > 0
    ensures |Rescale(ks, remaining)| == |ks|
    ensures forall i :: 0 <= i < |ks| ==>
      Rescale(ks, remaining)[i] == Milestone(ks[i].epoch, (ks[i].percent * 100 / remaining) % 256)
  {
    if ks != [] {
      RescaleShape(ks[1..], remaining);
      var rs := Rescale(ks, remaining);
      forall i | 0 < i < |ks|
        ensures rs[i] == Milestone(ks[i].epoch, (ks[i].percent * 100 / remaining) % 256)
      {
        assert rs[i] == Rescale(ks[1..], remaining)[i - 1];
        assert ks[1..][i - 1] == ks[i];
      }
    }
  }

  lemma {:induction false} PercentAtMostSum(ms: seq<Milestone>, i: nat)
    requires i < |ms|
    ensures ms[i].percent <= SumPercents(ms)
  {
    if i > 0 {
      PercentAtMostSum(ms[1..], i - 1);
    }
  }

  /** Matured and kept milestones partition the schedule's percents. */
  lemma {:induction false} PartitionSum(now: nat, ms: seq<Milestone>)
    ensures SumPercents(ms) == UnlockedPercent(now, ms) + SumPercents(Kept(now, ms))
  {
    if ms != [] {
      PartitionSum(now, ms[1..]);
      var h := if ms[0].epoch < now then [ms[0]] else [];
      var k := if ms[0].epoch >= now then [ms[0]] else [];
      SumPercentsAppend(h, Matured(now, ms[1..]));
      SumPercentsAppend(k, Kept(now, ms[1..]));
    }
  }

  /** Matured and kept milestones partition the schedule as a multiset. */
  lemma {:induction false} PartitionMultiset(now: nat, ms: seq<Milestone>)
    ensures multiset(ms) == multiset(Matured(now, ms)) + multiset(Kept(now, ms))
  {
    if ms != [] {
      PartitionMultiset(now, ms[1..]);
      assert ms == [ms[0]] + ms[1..];
    }
  }

  /** The kept milestones are exactly those of epoch at least `now`. */
  lemma {:induction false} KeptMembers(now: nat, ms: seq<Milestone>)
    ensures forall m :: m in Kept(now, ms) <==> m in ms && m.epoch >= now
  {
    if ms != [] {
      KeptMembers(now, ms[1..]);
      assert ms == [ms[0]] + ms[1..];
    }
  }

  /** The matured milestones are exactly those of epoch below `now`. */
  lemma {:induction false} MaturedMembers(now: nat, ms: seq<Milestone>)
    ensures forall m :: m in Matured(now, ms) <==> m in ms && m.epoch < now
  {
    if ms != [] {
      MaturedMembers(now, ms[1..]);
      assert ms == [ms[0]] + ms[1..];
    }
  }

  /** The kept milestones of an increasing schedule are increasing. */
  lemma {:induction false} KeptIncreasing(now: nat, ms: seq<Milestone>)
    requires Increasing(ms)
    ensures Increasing(Kept(now, ms))
  {
    if ms != [] {
      assert Increasing(ms[1..]);
      KeptIncreasing(now, ms[1..]);
      KeptMembers(now, ms[1..]);
      var tail := Kept(now, ms[1..]);
      forall m | m in tail
        ensures ms[0].epoch < m.epoch
      {
        var j :| 0 <= j < |ms[1..]| && ms[1..][j] == m;
        assert ms[j + 1] == m;
      }
      if ms[0].epoch >= now {
        var ks := [ms[0]] + tail;
        forall i, j | 0 <= i < j < |ks|
          ensures ks[i].epoch < ks[j].epoch
        {
          if i == 0 {
            assert ks[j] == tail[j - 1];
            assert tail[j - 1] in tail;
          } else {
            assert ks[i] == tail[i - 1] && ks[j] == tail[j - 1];
          }
        }
      }
    }
  }

  /** Nothing of a schedule whose epochs are all at least `now` matures. */
  lemma {:induction false} NothingMatured(now: nat, ms: seq<Milestone>)
    requires forall i :: 0 <= i < |ms| ==> ms[i].epoch >= now
    ensures Matured(now, ms) == [] && Kept(now, ms) == ms
  {
    if ms != [] {
      NothingMatured(now, ms[1..]);
      assert ms == [ms[0]] + ms[1..];
    }
  }

  /** Rescaling by 100 is the identity on u8 percents. */
  lemma {:induction false} RescaleByHundred(ks: seq<Milestone>)
    requires forall i :: 0 <= i < |ks| ==> ks[i].percent < 256
    ensures Rescale(ks, 100) == ks
  {
    if ks != [] {
      RescaleByHundred(ks[1..]);
      assert ks == [ks[0]] + ks[1..];
    }
  }

  /** Rescaling a list whose percents sum to at most `remaining`: the
      rescaled sum is at most `sum * 100 / remaining`, and each value lost
      less than one unit to the floor. */
  lemma {:induction false} RescaleBounds(ks: seq<Milestone>, remaining: nat)
    requires remaining > 0 && SumPercents(ks) <= remaining
    ensures SumPercents(Rescale(ks, remaining)) * remaining <= SumPercents(ks) * 100
    ensures SumPercents(ks) * 100 + |ks| <= (SumPercents(Rescale(ks, remaining)) + |ks|) * remaining
  {
    if ks != [] {
      var p := ks[0].percent;
      var f := p * 100 / remaining;
      PercentAtMostSum(ks, 0);
      RescaledAtMost100(p, remaining);
      assert f % 256 == f;
      FloorDiv(p * 100, remaining);
      RescaleBounds(ks[1..], remaining);
      RescaleStep(f, p, SumPercents(Rescale(ks[1..], remaining)), SumPercents(ks[1..]), |ks[1..]|, remaining);
    }
  }

  lemma RescaleStep(f: nat, p: nat, s: nat, k: nat, n: nat, remaining: nat)
    requires f * remaining <= p * 100 < f * remaining + remaining
    requires s * remaining <= k * 100 && k * 100 + n <= (s + n) * remaining
    ensures (f + s) * remaining <= (p + k) * 100
    ensures (p + k) * 100 + (n + 1) <= (f + s + (n + 1)) * remaining
  {
    assert (f + s) * remaining == f * remaining + s * remaining;
    assert (f + s + (n + 1)) * remaining == (f + 1) * remaining + (s + n) * remaining;
  }

  /** Every percent of a list summing to at most `remaining` rescales to at
      most 100. */
  lemma RescaledPercentsAtMost100(ks: seq<Milestone>, remaining: nat)
    requires remaining > 0 && SumPercents(ks) <= remaining
    ensures PercentsAtMost100(Rescale(ks, remaining))
  {
    RescaleShape(ks, remaining);
    forall i | 0 <= i < |ks|
      ensures Rescale(ks, remaining)[i].percent <= 100
    {
      PercentAtMostSum(ks, i);
      RescaledAtMost100(ks[i].percent, remaining);
    }
  }

  /** The rescaled sum is at most 100; when the kept percents are exactly
      the remaining percent, the rounding loses less than one per element. */
  lemma RescaledSum(ks: seq<Milestone>, remaining: nat)
    requires remaining > 0 && SumPercents(ks) <= remaining
    ensures SumPercents(Rescale(ks, remaining)) <= 100
    ensures ks != [] && SumPercents(ks) == remaining ==>
      100 < SumPercents(Rescale(ks, remaining)) + |ks|
  {
    RescaleBounds(ks, remaining);
    var s := SumPercents(Rescale(ks, remaining));
    ScaledSumBound(s, SumPercents(ks), remaining);
    if ks != [] && SumPercents(ks) == remaining {
      ShortfallArith(s, |ks|, remaining);
    }
  }

  lemma ScaledSumBound(s: nat, k: nat, remaining: nat)
    requires 0 < remaining && k <= remaining && s * remaining <= k * 100
    ensures s <= 100
  {
    MulMonotone(100, k, remaining);
    if s > 100 {
      MulMonotone(remaining, 101, s);
      assert false;
    }
  }

  lemma ShortfallArith(s: nat, n: nat, remaining: nat)
    requires 0 < remaining && 0 < n && remaining * 100 + n <= (s + n) * remaining
    ensures 100 < s + n
  {
    if s + n <= 100 {
      MulMonotone(remaining, s + n, 100);
      assert false;
    }
  }

  lemma {:induction false} AddShortfallSum(rs: seq<Milestone>)
    requires rs != [] && SumPercents(rs) <= 100
    ensures SumPercents(AddShortfall(rs)) == 100
    ensures AddShortfall(rs)[0].percent == 100 - SumPercents(rs[1..]) <= 100
    ensures |AddShortfall(rs)| == |rs| && AddShortfall(rs)[1..] == rs[1..]
    ensures forall i :: 0 <= i < |rs| ==> AddShortfall(rs)[i].epoch == rs[i].epoch
  {
    var a := AddShortfall(rs);
    assert a[1..] == rs[1..];
    assert SumPercents(a) == a[0].percent + SumPercents(a[1..]);
  }

  // ---------------------------------------------------------------------
  // Properties of the residual schedule

  /** Over a schedule summing to 100 the residual never traps, and it is
      empty exactly when the whole 100% has been released. */
  lemma ResidualWellDefined(now: nat, ms: seq<Milestone>)
    requires SumPercents(ms) == 100
    ensures NewUnlockMilestones(now, ms).Ok?
    ensures NewUnlockMilestones(now, ms).value == [] <==> UnlockedPercent(now, ms) == 100
  {
    PartitionSum(now, ms);
    var unlocked := UnlockedPercent(now, ms);
    if unlocked < 100 {
      var ks := Kept(now, ms);
      RescaleShape(ks, 100 - unlocked);
      RescaledSum(ks, 100 - unlocked);
      AddShortfallSum(Rescale(ks, 100 - unlocked));
    }
  }

  /** The residual keeps exactly the unmatured milestones, in order and with
      their epochs; every element after the first is the rescaled percent. */
  lemma ResidualKeepsUnmatured(now: nat, ms: seq<Milestone>, res: seq<Milestone>)
    requires NewUnlockMilestones(now, ms) == Ok(res) && res != []
    ensures UnlockedPercent(now, ms) < 100
    ensures |res| == |Kept(now, ms)|
    ensures forall i :: 0 <= i < |res| ==> res[i].epoch == Kept(now, ms)[i].epoch && res[i].epoch >= now
    ensures forall i :: 0 < i < |res| ==>
      res[i].percent == (Kept(now, ms)[i].percent * 100 / (100 - UnlockedPercent(now, ms))) % 256
  {
    var ks := Kept(now, ms);
    var remaining := 100 - UnlockedPercent(now, ms);
    RescaleShape(ks, remaining);
    AddShortfallSum(Rescale(ks, remaining));
    KeptMembers(now, ms);
    forall i | 0 <= i < |res|
      ensures res[i].epoch >= now
    {
      assert ks[i] in ks;
    }
  }

  /** Any residual that exists sums to exactly 100, its first element being
      100 minus the others (so at most 100). */
  lemma ResidualSumsTo100(now: nat, ms: seq<Milestone>, res: seq<Milestone>)
    requires NewUnlockMilestones(now, ms) == Ok(res) && res != []
    ensures SumPercents(res) == 100
    ensures res[0].percent == 100 - SumPercents(res[1..]) && res[0].percent <= 100
  {
    AddShortfallSum(Rescale(Kept(now, ms), 100 - UnlockedPercent(now, ms)));
  }

  /** Over a schedule summing to 100 the shortfall added to element 0 is
      smaller than the residual's length. */
  lemma ResidualShortfallBound(now: nat, ms: seq<Milestone>)
    requires SumPercents(ms) == 100 && UnlockedPercent(now, ms) < 100
    ensures var rs := Rescale(Kept(now, ms), 100 - UnlockedPercent(now, ms));
      SumPercents(rs) <= 100 < SumPercents(rs) + |rs|
  {
    PartitionSum(now, ms);
    var ks := Kept(now, ms);
    var remaining := 100 - UnlockedPercent(now, ms);
    RescaleShape(ks, remaining);
    RescaledSum(ks, remaining);
  }

  /** Applying create_new_unlock_milestones to its own non-empty output at
      the same epoch returns that output: nothing matures, the remaining
      percent is 100 and the shortfall is 0. */
  lemma ResidualIdempotent(now: nat, ms: seq<Milestone>, res: seq<Milestone>)
    requires NewUnlockMilestones(now, ms) == Ok(res) && res != []
    ensures NewUnlockMilestones(now, res) == Ok(res)
  {
    ResidualKeepsUnmatured(now, ms, res);
    ResidualSumsTo100(now, ms, res);
    NothingMatured(now, res);
    var remaining := 100 - UnlockedPercent(now, ms);
    var rs := Rescale(Kept(now, ms), remaining);
    RescaleShape(Kept(now, ms), remaining);
    AddShortfallSum(rs);
    forall i | 0 <= i < |res|
      ensures res[i].percent < 256
    {
      if i > 0 {
        assert res[i] == rs[i];
      }
    }
    RescaleByHundred(res);
    assert res[0 := res[0].(percent := res[0].percent + 0)] == res;
  }

  /** The empty schedule has no residual: indexing element 0 of the empty
      kept list panics. */
  lemma EmptyScheduleResidualTraps(now: nat)
    ensures NewUnlockMilestones(now, []) == Err(IndexOutOfBounds)
  {
    assert Matured(now, []) == [] && Kept(now, []) == [];
  }

  /** The residual of an increasing schedule with positive epochs is again
      increasing with positive epochs. */
  lemma ResidualIncreasing(now: nat, ms: seq<Milestone>, res: seq<Milestone>)
    requires NewUnlockMilestones(now, ms) == Ok(res) && res != []
    requires Increasing(ms) && ms[0].epoch > 0
    ensures Increasing(res) && res[0].epoch > 0
  {
    ResidualKeepsUnmatured(now, ms, res);
    var ks := Kept(now, ms);
    KeptIncreasing(now, ms);
    KeptMembers(now, ms);
    forall i, j | 0 <= i < j < |res|
      ensures res[i].epoch < res[j].epoch
    {
      assert res[i].epoch == ks[i].epoch && res[j].epoch == ks[j].epoch;
    }
    assert ks[0] in ks;
    var k :| 0 <= k < |ms| && ms[k] == ks[0];
    assert k == 0 || ms[0].epoch < ms[k].epoch;
  }

  /** Every percent of the residual of a schedule summing to at most 100 is
      at most 100. */
  lemma ResidualPercentsAtMost100(now: nat, ms: seq<Milestone>, res: seq<Milestone>)
    requires NewUnlockMilestones(now, ms) == Ok(res) && res != []
    requires SumPercents(ms) <= 100
    ensures PercentsAtMost100(res)
  {
    var ks := Kept(now, ms);
    var remaining := 100 - UnlockedPercent(now, ms);
    PartitionSum(now, ms);
    RescaledPercentsAtMost100(ks, remaining);
    var rs := Rescale(ks, remaining);
    AddShortfallSum(rs);
    forall i | 0 <= i < |res|
      ensures res[i].percent <= 100
    {
      if i > 0 {
        assert res[i] == rs[i];
      }
    }
  }

  /** Closure of validation: the residual of an accepted non-empty schedule is
      empty or again accepted by validation. */
  lemma ResidualStaysValid(now: nat, ms: seq<Milestone>)
    requires ValidSchedule(ms) && ms != []
    ensures NewUnlockMilestones(now, ms).Ok?
    ensures var res := NewUnlockMilestones(now, ms).value; res == [] || ValidSchedule(res)
  {
    ValidScheduleCharacterization(ms);
    ResidualWellDefined(now, ms);
    var res := NewUnlockMilestones(now, ms).value;
    if res != [] {
      ResidualSumsTo100(now, ms, res);
      ResidualIncreasing(now, ms, res);
      ResidualPercentsAtMost100(now, ms, res);
      ValidScheduleCharacterization(res);
    }
  }

  // ---------------------------------------------------------------------
  // Validation

  lemma {:induction false} MilestoneCheckPasses(last: nat, ms: seq<Milestone>)
    decreases ms
    ensures MilestoneCheck(last, ms).Pass? <==>
      (Increasing(ms) && (ms != [] ==> ms[0].epoch > last) && PercentsAtMost100(ms))
  {
    if ms != [] {
      MilestoneCheckPasses(ms[0].epoch, ms[1..]);
      if Increasing(ms) && ms[0].epoch > last && PercentsAtMost100(ms) {
        assert Increasing(ms[1..]);
        assert PercentsAtMost100(ms[1..]);
        if |ms| > 1 {
          assert ms[1..][0] == ms[1];
        }
      }
      if MilestoneCheck(last, ms).Pass? {
        assert ms[0].epoch > last && ms[0].percent <= 100;
        assert Increasing(ms[1..]) && PercentsAtMost100(ms[1..]);
        assert ms[1..] != [] ==> ms[0].epoch < ms[1..][0].epoch;
        forall i, j | 0 <= i < j < |ms|
          ensures ms[i].epoch < ms[j].epoch
        {
          if i == 0 {
            if j > 1 {
              assert ms[1..][0].epoch < ms[1..][j - 1].epoch;
            }
          } else {
            assert ms[1..][i - 1] == ms[i] && ms[1..][j - 1] == ms[j];
          }
        }
        forall i | 0 <= i < |ms|
          ensures ms[i].percent <= 100
        {
          if i > 0 {
            assert ms[1..][i - 1] == ms[i];
          }
        }
      }
    }
  }

  /** Validation accepts exactly the schedules whose epochs increase strictly
      from above 0, whose percents are each at most 100, and which, when
      non-empty, sum to 100. */
  lemma ValidScheduleCharacterization(ms: seq<Milestone>)
    ensures ValidSchedule(ms) <==>
      (Increasing(ms) && (ms != [] ==> ms[0].epoch > 0) && PercentsAtMost100(ms)
       && (ms != [] ==> SumPercents(ms) == 100))
  {
    MilestoneCheckPasses(0, ms);
  }

  // ---------------------------------------------------------------------
  // Worked example: [(10, 30%), (20, 70%)] at epoch 15 with 1000 locked

  lemma WorkedExample()
    ensures var s := [Milestone(10, 30), Milestone(20, 70)];
      && UnlockedPercent(15, s) == 30
      && GetUnlockAmount(1000, 15, s) == 300
      && NewUnlockMilestones(15, s) == Ok([Milestone(20, 100)])
  {
    var s := [Milestone(10, 30), Milestone(20, 70)];
    assert s[1..] == [Milestone(20, 70)] && s[1..][1..] == [];
    assert Matured(15, s) == [Milestone(10, 30)];
    assert Kept(15, s) == [Milestone(20, 70)];
    assert UnlockedPercent(15, s) == 30;
    assert 70 * 100 / 70 == 100;
    assert Rescale([Milestone(20, 70)], 70) == [Milestone(20, 100)];
    assert SumPercents([Milestone(20, 100)]) == 100;
    assert AddShortfall([Milestone(20, 100)]) == [Milestone(20, 100)];
    assert 1000 * 30 / 100 == 300;
  }
}
