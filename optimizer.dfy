/**
 * The guild trade optimiser (src/pages/tools/trade/optimizer.ts): a grid
 * search over the sales-tax and sales-bonus technique levels that
 * maximises the profit factor within a Wonder Jade budget.
 *
 * The rank tables are parameters (the source loads them from YAML), and
 * `calculateFactor`, floating-point arithmetic over those tables, is a
 * function parameter returning a real.
 */
module TradeOptimizer {

  datatype Cost = Cost(item: string, amount: int)

  /** One technique rank: the cost of reaching it. Rank 1 is at index 0. */
  datatype Rank = Rank(rank: int, cost: seq<Cost>)

  datatype Plan = Plan(taxLevel: int, bonusLevel: int, usedJades: int, profitFactor: real)

  const Jade := "Wonder Jade"

  /** The amount of the first `Wonder Jade` entry of a cost list, or nothing. */
  function FindJade(costs: seq<Cost>): (r: int)
    ensures (forall i :: 0 <= i < |costs| ==> costs[i].item != Jade) ==> r == 0
    ensures forall i :: 0 <= i < |costs| && costs[i].item == Jade && (forall j :: 0 <= j < i ==> costs[j].item != Jade)
              ==> r == costs[i].amount
  {
    if costs == [] then 0
    else if costs[0].item == Jade then costs[0].amount
    else FindJade(costs[1..])
  }

  /** What the rank at `index` adds: nothing when the index is outside the table. */
  function JadeAt(data: seq<Rank>, index: int): int {
    if 0 <= index < |data| then FindJade(data[index].cost) else 0
  }

  /** The Wonder Jade needed to go from level `s` to level `e`: ranks `s` to `e - 1` of the table. */
  function SumJade(data: seq<Rank>, s: int, e: int): int
    decreases e - s
  {
    if e <= s then 0 else SumJade(data, s, e - 1) + JadeAt(data, e - 1)
  }

  /** `getCumulativeCost(startL, endL, data)` */
  method GetCumulativeCost(s: int, e: int, data: seq<Rank>) returns (total: int)
    ensures total == SumJade(data, s, e)
  {
    total := 0;
    var index := s;
    while index < e
      invariant e <= s ==> index == s
      invariant s <= index && (s < e ==> index <= e)
      invariant total == SumJade(data, s, index)
      decreases e - index
    {
      if 0 <= index < |data| {
        var jade := FindJade(data[index].cost);
        total := total + jade;
      }
      index := index + 1;
    }
  }

  // ---------------------------------------------------------------------
  // Properties of the cumulative cost
  // ---------------------------------------------------------------------

  /** An empty or reversed level range costs nothing. */
  lemma SumJadeEmpty(data: seq<Rank>, s: int, e: int)
    requires e <= s
    ensures SumJade(data, s, e) == 0
  {
  }

  /** Upgrading in two steps costs what upgrading at once costs. */
  lemma {:induction false} SumJadeSplit(data: seq<Rank>, s: int, m: int, e: int)
    requires s <= m <= e
    ensures SumJade(data, s, e) == SumJade(data, s, m) + SumJade(data, m, e)
    decreases e - m
  {
    if m < e {
      SumJadeSplit(data, s, m, e - 1);
    }
  }

  /** Levels past the end of the table add nothing: the range is cut at the table's length. */
  lemma {:induction false} SumJadePastTable(data: seq<Rank>, s: int, e: int)
    requires 0 <= s && |data| <= e
    ensures SumJade(data, s, e) == SumJade(data, s, if s <= |data| then |data| else s)
    decreases e
  {
    if e > |data| && e > s {
      SumJadePastTable(data, s, e - 1);
    }
  }

  /** With no negative Wonder Jade amounts, a longer range never costs less. */
  lemma {:induction false} SumJadeMonotone(data: seq<Rank>, s: int, e: int, e': int)
    requires e <= e'
    requires forall i, j :: 0 <= i < |data| && 0 <= j < |data[i].cost| ==> data[i].cost[j].amount >= 0
    ensures SumJade(data, s, e) <= SumJade(data, s, e')
    decreases e' - e
  {
    if e < e' {
      SumJadeMonotone(data, s, e, e' - 1);
      if 0 <= e' - 1 < |data| {
        FindJadeNonNegative(data[e' - 1].cost);
      }
    }
  }

  lemma {:induction false} FindJadeNonNegative(costs: seq<Cost>)
    requires forall j :: 0 <= j < |costs| ==> costs[j].amount >= 0
    ensures FindJade(costs) >= 0
  {
    if costs != [] && costs[0].item != Jade {
      FindJadeNonNegative(costs[1..]);
    }
  }

  // ---------------------------------------------------------------------
  // The grid search
  // ---------------------------------------------------------------------

  const MaxLevel := 20

  /** The jade cost of raising the two techniques from the current levels to `t` and `b`. */
  function TotalCost(taxes: seq<Rank>, bonuses: seq<Rank>, curT: int, curB: int, t: int, b: int): int {
    SumJade(taxes, curT, t) + SumJade(bonuses, curB, b)
  }

  /** A pair of levels the search considers and can pay for. */
  predicate Affordable(available: int, taxes: seq<Rank>, bonuses: seq<Rank>, curT: int, curB: int, t: int, b: int) {
    curT <= t <= MaxLevel && curB <= b <= MaxLevel && TotalCost(taxes, bonuses, curT, curB, t, b) <= available
  }

  /** `(t, b)` comes strictly before `(t', b')` in the scan: tax level first, then bonus level. */
  predicate ScannedBefore(t: int, b: int, t': int, b': int) {
    t < t' || (t == t' && b < b')
  }

  /** The plan `optimizeWealth` starts from: the current levels, nothing spent. */
  function Start(curT: int, curB: int, factor: (int, int) -> real): Plan {
    Plan(curT, curB, 0, factor(curT, curB))
  }

  /**
   * `best` is what the scan holds once every pair before `(t, b)` has been
   * considered: its factor is that of its levels, it is the start or an
   * affordable pair already scanned at its exact cost, and every affordable
   * pair scanned so far has a lower factor, or the same factor and a higher
   * cost, or the same factor and cost and does not come before `best`.
   */
  ghost predicate Leading(available: int, taxes: seq<Rank>, bonuses: seq<Rank>, curT: int, curB: int,
                    factor: (int, int) -> real, best: Plan, t: int, b: int)
  {
    && best.profitFactor == factor(best.taxLevel, best.bonusLevel)
    && (best == Start(curT, curB, factor)
        || (Affordable(available, taxes, bonuses, curT, curB, best.taxLevel, best.bonusLevel)
            && best.usedJades == TotalCost(taxes, bonuses, curT, curB, best.taxLevel, best.bonusLevel)
            && ScannedBefore(best.taxLevel, best.bonusLevel, t, b)))
    && forall t', b' | Affordable(available, taxes, bonuses, curT, curB, t', b') && ScannedBefore(t', b', t, b) ::
         Beaten(taxes, bonuses, curT, curB, factor, best, t', b')
  }

  /**
   * `best` only ever replaces the starting plan (factor `start`, cost 0) by a
   * strictly higher factor, or by the same factor at a strictly lower cost.
   */
  predicate NoWorseThanStart(best: Plan, start: real) {
    best.profitFactor >= start && (best.profitFactor == start ==> best.usedJades <= 0)
  }

  /** The pair `(t, b)` does not displace `best`, and would not have been kept in its place. */
  predicate Beaten(taxes: seq<Rank>, bonuses: seq<Rank>, curT: int, curB: int, factor: (int, int) -> real,
                   best: Plan, t: int, b: int)
  {
    || factor(t, b) < best.profitFactor
    || (factor(t, b) == best.profitFactor
        && (TotalCost(taxes, bonuses, curT, curB, t, b) > best.usedJades
            || (TotalCost(taxes, bonuses, curT, curB, t, b) == best.usedJades
                && (best == Start(curT, curB, factor) || !ScannedBefore(t, b, best.taxLevel, best.bonusLevel)))))
  }

  /**
   * `optimizeWealth`: the starting plan, replaced by every affordable pair
   * with a strictly higher factor, or an equal factor at strictly lower cost.
   *
   * The result's factor is the factor of its levels, and never below the
   * starting plan's; a result at the starting factor costs at most the
   * starting plan's 0 jades. It is the starting plan,
   * or an affordable pair at its exact cost. No affordable pair has a higher
   * factor. Among affordable pairs with the same factor none is cheaper, and
   * none as cheap was scanned earlier.
   */
  method OptimizeWealth(available: int, curT: int, curB: int, taxes: seq<Rank>, bonuses: seq<Rank>,
                        factor: (int, int) -> real)
    returns (best: Plan)
    ensures best.profitFactor == factor(best.taxLevel, best.bonusLevel)
    ensures best.profitFactor >= factor(curT, curB)
    ensures best.profitFactor == factor(curT, curB) ==> best.usedJades <= 0
    ensures best == Start(curT, curB, factor)
            || (Affordable(available, taxes, bonuses, curT, curB, best.taxLevel, best.bonusLevel)
                && best.usedJades == TotalCost(taxes, bonuses, curT, curB, best.taxLevel, best.bonusLevel))
    ensures forall t, b | Affordable(available, taxes, bonuses, curT, curB, t, b) ::
              factor(t, b) <= best.profitFactor
    ensures forall t, b | Affordable(available, taxes, bonuses, curT, curB, t, b) && factor(t, b) == best.profitFactor ::
              TotalCost(taxes, bonuses, curT, curB, t, b) >= best.usedJades
    ensures forall t, b | Affordable(available, taxes, bonuses, curT, curB, t, b) && factor(t, b) == best.profitFactor
                          && TotalCost(taxes, bonuses, curT, curB, t, b) == best.usedJades
                          && best != Start(curT, curB, factor) ::
              !ScannedBefore(t, b, best.taxLevel, best.bonusLevel)
  {
    best := Plan(curT, curB, 0, factor(curT, curB));
    var t := curT;
    while t <= MaxLevel
      invariant curT <= t
      invariant Leading(available, taxes, bonuses, curT, curB, factor, best, t, curB)
      invariant NoWorseThanStart(best, factor(curT, curB))
      decreases MaxLevel - t
    {
      var b := curB;
      while b <= MaxLevel
        invariant curB <= b
        invariant Leading(available, taxes, bonuses, curT, curB, factor, best, t, b)
        invariant NoWorseThanStart(best, factor(curT, curB))
        decreases MaxLevel - b
      {
        var costT := GetCumulativeCost(curT, t, taxes);
        var costB := GetCumulativeCost(curB, b, bonuses);
        var totalCost := costT + costB;
        if totalCost <= available {
          var f := factor(t, b);
          if f > best.profitFactor || (f == best.profitFactor && totalCost < best.usedJades) {
            best := Plan(t, b, totalCost, f);
          }
        }
        b := b + 1;
      }
      t := t + 1;
    }
  }

  /**
   * With a budget that covers nothing beyond the current levels (and no
   * negative costs), the current levels come back unchanged.
   */
  lemma NothingAffordableKeepsLevels(available: int, curT: int, curB: int, taxes: seq<Rank>, bonuses: seq<Rank>,
                                     factor: (int, int) -> real, best: Plan)
    requires best.profitFactor == factor(best.taxLevel, best.bonusLevel)
    requires best == Start(curT, curB, factor)
             || (Affordable(available, taxes, bonuses, curT, curB, best.taxLevel, best.bonusLevel)
                 && best.usedJades == TotalCost(taxes, bonuses, curT, curB, best.taxLevel, best.bonusLevel))
    requires forall t, b :: curT <= t <= MaxLevel && curB <= b <= MaxLevel && (t, b) != (curT, curB) ==>
               TotalCost(taxes, bonuses, curT, curB, t, b) > available
    ensures best.taxLevel == curT && best.bonusLevel == curB
  {
  }
}
