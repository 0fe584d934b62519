/**
 * `getAcquisitionPlan` of src/pages/tools/mystic-skills/logic.ts: how many
 * days it takes to collect the materials a set of upgrades needs.
 *
 * Ebon Iron comes from outpost runs paid with daily energy: integer ceiling
 * arithmetic. The rare materials are simulated day by day: daily gathering
 * (in gathering mode) and, every Monday, 54 chest units handed out to the
 * material that would take longest to gather. The simulation stops when
 * every need is met or after ten years.
 *
 * The day of the week the page is opened on (`new Date().getDay()`) is the
 * parameter `startDay`. The days-to-gather ratio the chest pick compares is
 * computed in exact rationals.
 */
module MysticPlan {
  import opened Wrappers
  import opened Collections
  import opened MysticTotals
  import opened MysticSort

  const EbIronPerOutpost := 23
  const EnergyPerOutpost := 20
  const EnergyPerDay := 180
  const WeeklyChests := 18
  const MatsPerChest := 3
  const WeeklyChestTotal := WeeklyChests * MatsPerChest
  const MaxSimulatedDays := 3650

  /** `ACQUISITION_RATES[mat] || 3`: units gathered per day. */
  function AcquisitionRate(mat: string): (r: int)
    ensures r > 0
  {
    if mat == "Vicious Fruit" then 3
    else if mat == "Beauty's Plume" then 8
    else if mat == "Buddha's Tear Root" then 10
    else if mat == "Jade Tower Pearl" then 10
    else if mat == "Jasmin Stamen" then 6
    else 3
  }

  /** `Math.ceil(a / d)` for a positive divisor. */
  function CeilDiv(a: int, d: int): (r: int)
    requires d > 0
    ensures d * r - d < a <= d * r
  {
    -((-a) / d)
  }

  datatype AcquisitionPlan = AcquisitionPlan(daysEbIron: int, daysRare: int, totalDays: int,
                                             energyNeeded: int, runsNeeded: int)

  // ---------------------------------------------------------------------
  // The rare-material simulation as functions
  //
  // The source keeps the needs in an object keyed by material; its keys are
  // exactly `rareMats`. Here the needs are a sequence aligned with `rare`:
  // `needs[i]` is what is still wanted of `rare[i]`.
  // ---------------------------------------------------------------------

  /** `Object.values(needs).some(v => v > 0)` */
  predicate AnyPositive(needs: seq<int>) {
    exists i :: 0 <= i < |needs| && needs[i] > 0
  }

  /**
   * One day of gathering: in gathering mode every material still needed
   * drops by its rate; nothing else changes.
   */
  function Gather(needs: seq<int>, rare: seq<string>, gatherMode: bool): (r: seq<int>)
    requires |needs| == |rare|
    ensures |r| == |needs|
    ensures !gatherMode ==> r == needs
    ensures forall i :: 0 <= i < |r| ==> r[i] <= needs[i] && (needs[i] <= 0 ==> r[i] == needs[i])
    ensures forall i :: 0 <= i < |r| && needs[i] > 0 && gatherMode ==> r[i] < needs[i]
  {
    seq(|needs|, i requires 0 <= i < |needs| =>
      if needs[i] > 0 && gatherMode then needs[i] - AcquisitionRate(rare[i]) else needs[i])
  }

  /** `needs[mat] / rate`: the days gathering still takes; the rate is 0.1 outside gathering mode. */
  function DaysToGather(need: int, gatherMode: bool, mat: string): real {
    need as real / (if gatherMode then AcquisitionRate(mat) as real else 0.1)
  }

  /**
   * The chest pick among the first `n` materials: one with a positive need
   * and the most days to gather, the first of them on a tie; none when no
   * material has a positive need.
   */
  function WorstIn(needs: seq<int>, rare: seq<string>, gatherMode: bool, n: nat): (r: Option<nat>)
    requires |needs| == |rare| && n <= |rare|
    ensures r.None? <==> forall i :: 0 <= i < n ==> needs[i] <= 0
    ensures r.Some? ==> r.value < n && needs[r.value] > 0
  {
    if n == 0 then None
    else
      var prev := WorstIn(needs, rare, gatherMode, n - 1);
      if needs[n - 1] > 0
         && (prev.None?
             || DaysToGather(needs[n - 1], gatherMode, rare[n - 1])
                > DaysToGather(needs[prev.value], gatherMode, rare[prev.value]))
      then Some(n - 1)
      else prev
  }

  /**
   * The pick takes longest to gather among the materials with a positive
   * need, and every material before it takes strictly less long: later
   * materials only displace it by taking strictly longer.
   */
  lemma {:induction false} WorstInIsWorst(needs: seq<int>, rare: seq<string>, gatherMode: bool, n: nat)
    requires |needs| == |rare| && n <= |rare|
    ensures var r := WorstIn(needs, rare, gatherMode, n);
            r.Some? ==>
              && (forall i :: 0 <= i < n && needs[i] > 0 ==>
                    DaysToGather(needs[i], gatherMode, rare[i]) <= DaysToGather(needs[r.value], gatherMode, rare[r.value]))
              && (forall i :: 0 <= i < r.value && needs[i] > 0 ==>
                    DaysToGather(needs[i], gatherMode, rare[i]) < DaysToGather(needs[r.value], gatherMode, rare[r.value]))
  {
    if n > 0 {
      WorstInIsWorst(needs, rare, gatherMode, n - 1);
    }
  }

  /**
   * Monday's chests: while units are left and something is needed, the worst
   * material takes as many units as it needs or as are left. A pick named
   * `""` ends the hand-out (the source tests the name for truthiness).
   */
  function Chests(needs: seq<int>, rare: seq<string>, gatherMode: bool, left: int): (r: seq<int>)
    requires |needs| == |rare|
    ensures |r| == |needs|
    decreases left
  {
    if left > 0 && AnyPositive(needs) then
      var w := WorstIn(needs, rare, gatherMode, |rare|);
      if w.None? || rare[w.value] == "" then needs
      else
        var i := w.value;
        var amount := if left < needs[i] then left else needs[i];
        Chests(needs[i := needs[i] - amount], rare, gatherMode, left - amount)
    else needs
  }

  function Sum(s: seq<int>): int {
    if s == [] then 0 else s[0] + Sum(s[1..])
  }

  lemma {:induction false} SumUpdate(s: seq<int>, i: nat, v: int)
    requires i < |s|
    ensures Sum(s[i := v]) == Sum(s) - s[i] + v
    decreases |s|
  {
    if i > 0 {
      SumUpdate(s[1..], i - 1, v);
      assert s[i := v][1..] == s[1..][i - 1 := v];
    }
  }

  /**
   * What the chests do to each material: no need grows, a material that was
   * not needed is left alone, and a need is never pushed below zero.
   */
  lemma {:induction false} ChestsOnlyLower(needs: seq<int>, rare: seq<string>, gatherMode: bool, left: int)
    requires |needs| == |rare|
    ensures var r := Chests(needs, rare, gatherMode, left);
            && (forall i :: 0 <= i < |r| ==> r[i] <= needs[i])
            && (forall i :: 0 <= i < |r| && needs[i] <= 0 ==> r[i] == needs[i])
            && (forall i :: 0 <= i < |r| && needs[i] > 0 ==> r[i] >= 0)
    decreases left
  {
    if left > 0 && AnyPositive(needs) {
      var w := WorstIn(needs, rare, gatherMode, |rare|);
      if w.Some? && rare[w.value] != "" {
        var i := w.value;
        var amount := if left < needs[i] then left else needs[i];
        var next := needs[i := needs[i] - amount];
        assert 0 < amount <= needs[i];
        ChestsOnlyLower(next, rare, gatherMode, left - amount);
        assert Chests(needs, rare, gatherMode, left) == Chests(next, rare, gatherMode, left - amount);
        assert forall j :: 0 <= j < |needs| ==>
                 next[j] <= needs[j] && (needs[j] <= 0 ==> next[j] == needs[j]) && (needs[j] > 0 ==> next[j] >= 0);
      }
    }
  }

  /**
   * How many units the chests hand out: at most `left`, and fewer only when
   * nothing is needed any more or the pick is a needed material named `""`.
   */
  lemma {:induction false} ChestsUseUnits(needs: seq<int>, rare: seq<string>, gatherMode: bool, left: int)
    requires |needs| == |rare|
    ensures var r := Chests(needs, rare, gatherMode, left);
            && Sum(needs) - Sum(r) <= (if left > 0 then left else 0)
            && (Sum(needs) - Sum(r) < left ==>
                  !AnyPositive(r) || exists i :: 0 <= i < |r| && r[i] > 0 && rare[i] == "")
    decreases left
  {
    if left > 0 && AnyPositive(needs) {
      var w := WorstIn(needs, rare, gatherMode, |rare|);
      assert w.Some?;
      var i := w.value;
      if rare[i] != "" {
        var amount := if left < needs[i] then left else needs[i];
        var next := needs[i := needs[i] - amount];
        ChestsUseUnits(next, rare, gatherMode, left - amount);
        SumUpdate(needs, i, needs[i] - amount);
        assert Chests(needs, rare, gatherMode, left) == Chests(next, rare, gatherMode, left - amount);
      } else {
        assert Chests(needs, rare, gatherMode, left) == needs;
        assert needs[i] > 0 && rare[i] == "";
      }
    }
  }

  /** Simulated day `day`: gathering, then the chests when it is a Monday. */
  function Day(needs: seq<int>, rare: seq<string>, gatherMode: bool, startDay: int, day: int): (r: seq<int>)
    requires |needs| == |rare|
    ensures |r| == |needs|
  {
    var gathered := Gather(needs, rare, gatherMode);
    if (startDay + day) % 7 == 1 then Chests(gathered, rare, gatherMode, WeeklyChestTotal) else gathered
  }

  /** The needs after `k` simulated days. */
  function After(needs: seq<int>, rare: seq<string>, gatherMode: bool, startDay: int, k: nat): (r: seq<int>)
    requires |needs| == |rare|
    ensures |r| == |needs|
  {
    if k == 0 then needs
    else Day(After(needs, rare, gatherMode, startDay, k - 1), rare, gatherMode, startDay, k)
  }

  /** The needs the simulation starts from: the total of every material other than Ebon Iron. */
  function RareNeeds(totals: Tally): (r: seq<int>)
    ensures |r| == |Others(totals.order)|
  {
    var rare := Others(totals.order);
    seq(|rare|, i requires 0 <= i < |rare| => Amount(totals, rare[i]))
  }

  // ---------------------------------------------------------------------
  // The plan
  // ---------------------------------------------------------------------

  /**
   * `getAcquisitionPlan(totals, gatherMode)`.
   *
   * Runs, energy and Ebon Iron days are the smallest that cover the need.
   * `daysRare` is the first day after which no rare material is needed any
   * more, or 3650 when the simulation gives up; in particular it is 0
   * exactly when no rare material has a positive total.
   */
  method GetAcquisitionPlan(totals: Tally, gatherMode: bool, startDay: int) returns (plan: AcquisitionPlan)
    requires ValidTally(totals) && 0 <= startDay < 7
    ensures var ebIron := Amount(totals, EbonIron);
            EbIronPerOutpost * plan.runsNeeded - EbIronPerOutpost < ebIron <= EbIronPerOutpost * plan.runsNeeded
    ensures plan.energyNeeded == EnergyPerOutpost * plan.runsNeeded
    ensures EnergyPerDay * plan.daysEbIron - EnergyPerDay < plan.energyNeeded <= EnergyPerDay * plan.daysEbIron
    ensures 0 <= plan.daysRare <= MaxSimulatedDays
    ensures plan.daysRare == 0 <==> forall m :: m in totals.amounts && m != EbonIron ==> totals.amounts[m] <= 0
    ensures forall k :: 0 <= k < plan.daysRare ==>
              AnyPositive(After(RareNeeds(totals), Others(totals.order), gatherMode, startDay, k))
    ensures plan.daysRare < MaxSimulatedDays ==>
              !AnyPositive(After(RareNeeds(totals), Others(totals.order), gatherMode, startDay, plan.daysRare))
    ensures plan.totalDays >= plan.daysEbIron && plan.totalDays >= plan.daysRare
    ensures plan.totalDays == plan.daysEbIron || plan.totalDays == plan.daysRare
  {
    var ebIronNeeded := Amount(totals, EbonIron);
    var runsNeeded, energyNeeded, daysEbIron := EbIronPlan(ebIronNeeded);

    var rareMats := Others(totals.order);
    var daysRare := 0;
    if |rareMats| > 0 {
      var needs := RareNeeds(totals);
      daysRare := SimulateRare(needs, rareMats, gatherMode, startDay);
    }
    NoDaysExactlyWhenNothingNeeded(totals, gatherMode, startDay, daysRare);
    var totalDays := if daysEbIron >= daysRare then daysEbIron else daysRare;
    plan := AcquisitionPlan(daysEbIron, daysRare, totalDays, energyNeeded, runsNeeded);
  }

  /**
   * The Ebon Iron part of the plan: the fewest outpost runs that yield the
   * need, their energy, and the fewest days whose energy pays for them.
   */
  method EbIronPlan(ebIronNeeded: int) returns (runsNeeded: int, energyNeeded: int, daysEbIron: int)
    ensures EbIronPerOutpost * runsNeeded - EbIronPerOutpost < ebIronNeeded <= EbIronPerOutpost * runsNeeded
    ensures energyNeeded == EnergyPerOutpost * runsNeeded
    ensures EnergyPerDay * daysEbIron - EnergyPerDay < energyNeeded <= EnergyPerDay * daysEbIron
  {
    runsNeeded := CeilDiv(ebIronNeeded, EbIronPerOutpost);
    energyNeeded := runsNeeded * EnergyPerOutpost;
    daysEbIron := CeilDiv(energyNeeded, EnergyPerDay);
  }

  /**
   * The day-by-day `while` of the simulation: the number of days until
   * nothing is needed, or 3650 when the simulation gives up first.
   */
  method SimulateRare(needs0: seq<int>, rareMats: seq<string>, gatherMode: bool, startDay: int)
    returns (daysRare: int)
    requires |needs0| == |rareMats|
    ensures 0 <= daysRare <= MaxSimulatedDays
    ensures forall k :: 0 <= k < daysRare ==> AnyPositive(After(needs0, rareMats, gatherMode, startDay, k))
    ensures daysRare < MaxSimulatedDays ==> !AnyPositive(After(needs0, rareMats, gatherMode, startDay, daysRare))
  {
    daysRare := 0;
    var needs := needs0;
    while AnyPositive(needs) && daysRare < MaxSimulatedDays
      invariant 0 <= daysRare <= MaxSimulatedDays
      invariant needs == After(needs0, rareMats, gatherMode, startDay, daysRare)
      invariant NeededThrough(needs0, rareMats, gatherMode, startDay, daysRare)
      decreases MaxSimulatedDays - daysRare
    {
      daysRare := daysRare + 1;
      needs := SimulateDay(needs0, needs, rareMats, gatherMode, startDay, daysRare);
    }
    NeededOnEachDay(needs0, rareMats, gatherMode, startDay, daysRare);
  }

  /** Something was still needed at the start of each of the first `d` days. */
  predicate NeededThrough(needs0: seq<int>, rare: seq<string>, gatherMode: bool, startDay: int, d: nat)
    requires |needs0| == |rare|
  {
    d == 0
    || (NeededThrough(needs0, rare, gatherMode, startDay, d - 1)
        && AnyPositive(After(needs0, rare, gatherMode, startDay, d - 1)))
  }

  lemma {:induction false} NeededOnEachDay(needs0: seq<int>, rare: seq<string>, gatherMode: bool, startDay: int, d: nat)
    requires |needs0| == |rare| && NeededThrough(needs0, rare, gatherMode, startDay, d)
    ensures forall k :: 0 <= k < d ==> AnyPositive(After(needs0, rare, gatherMode, startDay, k))
  {
    if d > 0 {
      NeededOnEachDay(needs0, rare, gatherMode, startDay, d - 1);
    }
  }

  /** One pass of the simulation loop: day `day` takes the needs after `day - 1` days to those after `day`. */
  method SimulateDay(ghost needs0: seq<int>, needs: seq<int>, rareMats: seq<string>, gatherMode: bool,
                     currentDayOfWeek: int, day: nat)
    returns (r: seq<int>)
    requires |needs0| == |rareMats| && day > 0
    requires needs == After(needs0, rareMats, gatherMode, currentDayOfWeek, day - 1)
    ensures r == After(needs0, rareMats, gatherMode, currentDayOfWeek, day)
  {
    r := GatherDay(needs, rareMats, gatherMode);
    if (currentDayOfWeek + day) % 7 == 1 {
      r := WeeklyChestsDay(r, rareMats, gatherMode);
    }
    NextDay(needs0, rareMats, gatherMode, currentDayOfWeek, day);
  }

  /** Day `k` continues from the needs after `k - 1` days. */
  lemma NextDay(needs0: seq<int>, rare: seq<string>, gatherMode: bool, startDay: int, k: nat)
    requires |needs0| == |rare| && k > 0
    ensures After(needs0, rare, gatherMode, startDay, k)
            == Day(After(needs0, rare, gatherMode, startDay, k - 1), rare, gatherMode, startDay, k)
  {
  }

  /** The simulation takes no day exactly when no total other than Ebon Iron's is positive. */
  lemma NoDaysExactlyWhenNothingNeeded(totals: Tally, gatherMode: bool, startDay: int, daysRare: int)
    requires ValidTally(totals) && 0 <= daysRare <= MaxSimulatedDays
    requires forall k :: 0 <= k < daysRare ==>
               AnyPositive(After(RareNeeds(totals), Others(totals.order), gatherMode, startDay, k))
    requires daysRare < MaxSimulatedDays ==>
               !AnyPositive(After(RareNeeds(totals), Others(totals.order), gatherMode, startDay, daysRare))
    ensures daysRare == 0 <==> forall m :: m in totals.amounts && m != EbonIron ==> totals.amounts[m] <= 0
  {
    var rare := Others(totals.order);
    var needs0 := RareNeeds(totals);
    assert After(needs0, rare, gatherMode, startDay, 0) == needs0;
    RareNeedsPositive(totals);
    if daysRare == 0 {
      assert !AnyPositive(needs0);
    } else {
      assert AnyPositive(After(needs0, rare, gatherMode, startDay, 0));
      var m :| m in totals.amounts && m != EbonIron && totals.amounts[m] > 0;
    }
  }

  /** The daily `rareMats.forEach`: each needed material drops by its rate in gathering mode. */
  method GatherDay(needs: seq<int>, rareMats: seq<string>, gatherMode: bool) returns (r: seq<int>)
    requires |needs| == |rareMats|
    ensures r == Gather(needs, rareMats, gatherMode)
  {
    r := needs;
    for i := 0 to |rareMats|
      invariant |r| == |needs|
      invariant forall j :: 0 <= j < i ==> r[j] == Gather(needs, rareMats, gatherMode)[j]
      invariant forall j :: i <= j < |r| ==> r[j] == needs[j]
    {
      if r[i] > 0 && gatherMode {
        r := r[i := r[i] - AcquisitionRate(rareMats[i])];
      }
    }
  }

  /** The Monday hand-out: the inner `while (chestsLeft > 0 && ...)` loop. */
  method WeeklyChestsDay(needs: seq<int>, rareMats: seq<string>, gatherMode: bool) returns (r: seq<int>)
    requires |needs| == |rareMats|
    ensures r == Chests(needs, rareMats, gatherMode, WeeklyChestTotal)
  {
    var chestsLeft := WeeklyChestTotal;
    r := needs;
    while chestsLeft > 0 && AnyPositive(r)
      invariant |r| == |rareMats|
      invariant Chests(r, rareMats, gatherMode, chestsLeft) == Chests(needs, rareMats, gatherMode, WeeklyChestTotal)
      decreases chestsLeft
    {
      var worst := FindWorst(r, rareMats, gatherMode);
      if worst.None? || rareMats[worst.value] == "" {
        return;
      }
      var i := worst.value;
      var amount := if chestsLeft < r[i] then chestsLeft else r[i];
      r := r[i := r[i] - amount];
      chestsLeft := chestsLeft - amount;
    }
  }

  /** The `rareMats.forEach` that looks for the material taking longest to gather. */
  method FindWorst(needs: seq<int>, rareMats: seq<string>, gatherMode: bool) returns (worst: Option<nat>)
    requires |needs| == |rareMats|
    ensures worst == WorstIn(needs, rareMats, gatherMode, |rareMats|)
  {
    worst := None;
    var maxDays: real := -1.0;
    for i := 0 to |rareMats|
      invariant worst == WorstIn(needs, rareMats, gatherMode, i)
      invariant worst.None? ==> maxDays == -1.0
      invariant worst.Some? ==> maxDays == DaysToGather(needs[worst.value], gatherMode, rareMats[worst.value])
                                && maxDays > 0.0
    {
      var mat := rareMats[i];
      if needs[i] > 0 {
        var rate: real := if gatherMode then AcquisitionRate(mat) as real else 0.1;
        var d := needs[i] as real / rate;
        assert d == DaysToGather(needs[i], gatherMode, mat);
        if d > maxDays {
          maxDays := d;
          worst := Some(i);
        }
      }
    }
  }

  /** Every name the simulation tracks is a key of the record other than Ebon Iron, and every such key is tracked. */
  lemma OthersMembers(names: seq<string>)
    ensures forall x :: x in Others(names) <==> x in names && x != EbonIron
  {
    forall x ensures x in Others(names) <==> x in names && x != EbonIron {
      assert x in Others(names) <==> x in multiset(Others(names));
      assert x in names <==> x in multiset(names);
    }
  }

  /** The starting needs have a positive entry exactly when some total other than Ebon Iron's is positive. */
  lemma RareNeedsPositive(totals: Tally)
    requires ValidTally(totals)
    ensures AnyPositive(RareNeeds(totals)) <==> exists m :: m in totals.amounts && m != EbonIron && totals.amounts[m] > 0
  {
    var rare := Others(totals.order);
    var needs := RareNeeds(totals);
    OthersMembers(totals.order);
    if AnyPositive(needs) {
      var i :| 0 <= i < |needs| && needs[i] > 0;
      assert rare[i] in rare;
      assert rare[i] in Elems(totals.order);
    }
    if exists m :: m in totals.amounts && m != EbonIron && totals.amounts[m] > 0 {
      var m :| m in totals.amounts && m != EbonIron && totals.amounts[m] > 0;
      assert m in Elems(totals.order);
      assert m in rare;
      var i :| 0 <= i < |rare| && rare[i] == m;
      assert needs[i] > 0;
    }
  }
}
