/**
 * `calculateTotals` of src/pages/tools/mystic-skills/logic.ts: the
 * materials needed to take each mystic skill from its current (tier, rank)
 * to its target, per skill and over all skills.
 *
 * A skill's `id` is given precomputed (the source derives it from the name
 * with `toLowerCase` and a whitespace replace). The page state is a map from
 * setting names to numbers.
 */
module MysticTotals {
  import opened Collections

  datatype Cost = Cost(item: string, amount: int)

  /** One rank of a tier and what paying for it costs. */
  datatype RankUp = RankUp(rank: int, cost: seq<Cost>)

  datatype TierUp = TierUp(tier: int, ranks: seq<RankUp>)

  datatype Skill = Skill(name: string, id: string, startingTier: int, rankUps: seq<TierUp>)

  // ---------------------------------------------------------------------
  // Records of amounts
  // ---------------------------------------------------------------------

  /**
   * A `Record<string, number>` built by `rec[item] = (rec[item] || 0) +
   * amount`: the amounts, and the item names in the order they were first
   * added. `Object.keys` reports them in that order except that it lists
   * integer-like names first, which is not modelled.
   */
  datatype Tally = Tally(order: seq<string>, amounts: map<string, int>)

  const EmptyTally := Tally([], map[])

  predicate ValidTally(t: Tally) {
    Distinct(t.order) && Elems(t.order) == t.amounts.Keys
  }

  /** What the record holds for `item`; a missing entry reads as 0. */
  function Amount(t: Tally, item: string): int {
    if item in t.amounts then t.amounts[item] else 0
  }

  /** One addition to the record. */
  function Add(t: Tally, c: Cost): Tally {
    if c.item in t.amounts then Tally(t.order, t.amounts[c.item := t.amounts[c.item] + c.amount])
    else Tally(t.order + [c.item], t.amounts[c.item := c.amount])
  }

  /** The additions of `cs`, in order. */
  function AddAll(t: Tally, cs: seq<Cost>): Tally
    decreases |cs|
  {
    if cs == [] then t else Add(AddAll(t, cs[..|cs| - 1]), cs[|cs| - 1])
  }

  /** The total amount of `item` in a list of costs: the reference the records are compared with. */
  function SumOf(cs: seq<Cost>, item: string): int
    decreases |cs|
  {
    if cs == [] then 0
    else SumOf(cs[1..], item) + (if cs[0].item == item then cs[0].amount else 0)
  }

  lemma {:induction false} SumOfConcat(xs: seq<Cost>, ys: seq<Cost>, item: string)
    ensures SumOf(xs + ys, item) == SumOf(xs, item) + SumOf(ys, item)
    decreases |xs|
  {
    if xs != [] {
      assert (xs + ys)[0] == xs[0];
      assert (xs + ys)[1..] == xs[1..] + ys;
      SumOfConcat(xs[1..], ys, item);
    } else {
      assert xs + ys == ys;
    }
  }

  lemma AddAllSnoc(t: Tally, cs: seq<Cost>, c: Cost)
    ensures AddAll(t, cs + [c]) == Add(AddAll(t, cs), c)
  {
    assert (cs + [c])[..|cs|] == cs;
  }

  /** One addition keeps a record valid; it adds the item's key and appends to the order when the key is new. */
  lemma AddKeepsValid(t: Tally, c: Cost)
    requires ValidTally(t)
    ensures ValidTally(Add(t, c))
    ensures Add(t, c).amounts.Keys == t.amounts.Keys + {c.item}
    ensures t.order <= Add(t, c).order
  {
    if c.item !in t.amounts {
      forall i, j | 0 <= i < j < |t.order + [c.item]|
        ensures (t.order + [c.item])[i] != (t.order + [c.item])[j]
      {
        if j == |t.order| {
          assert t.order[i] in Elems(t.order);
        }
      }
    }
  }

  /**
   * A record built by additions holds, for every item, its previous amount
   * plus the item's total in the added costs, and it stays a record (keys in
   * first-added order, each once) that extends the old order.
   */
  lemma {:induction false} AddAllAmount(t: Tally, cs: seq<Cost>, item: string)
    requires ValidTally(t)
    ensures ValidTally(AddAll(t, cs))
    ensures Amount(AddAll(t, cs), item) == Amount(t, item) + SumOf(cs, item)
    ensures t.order <= AddAll(t, cs).order
    decreases |cs|
  {
    if cs != [] {
      var init := cs[..|cs| - 1];
      var last := cs[|cs| - 1];
      assert cs == init + [last];
      AddAllAmount(t, init, item);
      SumOfConcat(init, [last], item);
      assert SumOf([last], item) == if last.item == item then last.amount else 0;
      AddKeepsValid(AddAll(t, init), last);
    }
  }

  /** The item names of a list of costs. */
  function Items(cs: seq<Cost>): (r: set<string>)
    ensures forall x :: x in r <==> exists i :: 0 <= i < |cs| && cs[i].item == x
    decreases |cs|
  {
    if cs == [] then {}
    else
      var init := cs[..|cs| - 1];
      assert forall i :: 0 <= i < |init| ==> init[i] == cs[i];
      Items(init) + {cs[|cs| - 1].item}
  }

  /** The keys of a record after additions: the old keys and the added items. */
  lemma {:induction false} AddAllKeys(t: Tally, cs: seq<Cost>)
    requires ValidTally(t)
    ensures AddAll(t, cs).amounts.Keys == t.amounts.Keys + Items(cs)
    decreases |cs|
  {
    if cs != [] {
      var init := cs[..|cs| - 1];
      AddAllKeys(t, init);
      AddAllAmount(t, init, "");
      AddKeepsValid(AddAll(t, init), cs[|cs| - 1]);
    }
  }

  // ---------------------------------------------------------------------
  // The (tier, rank) window
  // ---------------------------------------------------------------------

  datatype Level = Level(tier: int, rank: int)

  /** Lexicographic order: tier first, then rank. */
  predicate Before(a: Level, b: Level) {
    a.tier < b.tier || (a.tier == b.tier && a.rank < b.rank)
  }

  predicate AtOrBefore(a: Level, b: Level) {
    Before(a, b) || a == b
  }

  /** `states.get(key) as number || fallback`: an absent or zero setting falls back. */
  function Setting(states: map<string, int>, key: string, fallback: int): int {
    if key in states && states[key] != 0 then states[key] else fallback
  }

  datatype Window = Window(cur: Level, target: Level)

  /** The current and target levels of a skill, from the page state. */
  function WindowOf(skill: Skill, states: map<string, int>): (w: Window)
    ensures w.cur.tier == Setting(states, skill.id + "-curTier", skill.startingTier)
    ensures w.cur.rank == Setting(states, skill.id + "-curRank", 0)
    ensures w.target.tier == Setting(states, skill.id + "-targetTier", skill.startingTier)
    ensures w.target.rank == Setting(states, skill.id + "-targetRank", 0)
  {
    Window(Level(Setting(states, skill.id + "-curTier", skill.startingTier),
                 Setting(states, skill.id + "-curRank", 0)),
           Level(Setting(states, skill.id + "-targetTier", skill.startingTier),
                 Setting(states, skill.id + "-targetRank", 0)))
  }

  /**
   * The level reached after paying for rank `rank` of tier `tier`: rank 0 of
   * a tier above the starting one opens that tier at rank 0, any other rank
   * leads to the next rank of its tier.
   */
  function Reached(startingTier: int, tier: int, rank: int): (l: Level)
    ensures l.tier == tier
    ensures rank == 0 && tier > startingTier ==> l.rank == 0
    ensures !(rank == 0 && tier > startingTier) ==> l.rank == rank + 1 && Before(Level(tier, rank), l)
  {
    if rank == 0 && tier > startingTier then Level(tier, 0) else Level(tier, rank + 1)
  }

  /** A cost is paid when the level it reaches is after the current one and not after the target. */
  predicate Counted(w: Window, l: Level) {
    Before(w.cur, l) && AtOrBefore(l, w.target)
  }

  /** The counted costs of the ranks of one tier, in order. */
  function RankCosts(w: Window, startingTier: int, tier: int, ranks: seq<RankUp>): seq<Cost>
    decreases |ranks|
  {
    if ranks == [] then []
    else
      var r := ranks[|ranks| - 1];
      RankCosts(w, startingTier, tier, ranks[..|ranks| - 1])
        + (if Counted(w, Reached(startingTier, tier, r.rank)) then r.cost else [])
  }

  /** The counted costs of a skill's tiers, in order. */
  function TierCosts(w: Window, startingTier: int, tiers: seq<TierUp>): seq<Cost>
    decreases |tiers|
  {
    if tiers == [] then []
    else
      var tu := tiers[|tiers| - 1];
      TierCosts(w, startingTier, tiers[..|tiers| - 1]) + RankCosts(w, startingTier, tu.tier, tu.ranks)
  }

  function SkillCosts(skill: Skill, w: Window): seq<Cost> {
    TierCosts(w, skill.startingTier, skill.rankUps)
  }

  /** What one skill needs, as the record `skillTotals[skill.name]`. */
  function PerSkill(skill: Skill, states: map<string, int>): Tally {
    AddAll(EmptyTally, SkillCosts(skill, WindowOf(skill, states)))
  }

  /** The counted costs of all skills, in order. */
  function AllCosts(skills: seq<Skill>, states: map<string, int>): seq<Cost>
    decreases |skills|
  {
    if skills == [] then []
    else
      var s := skills[|skills| - 1];
      AllCosts(skills[..|skills| - 1], states) + SkillCosts(s, WindowOf(s, states))
  }

  /**
   * Skill `i` is the last of its name among the first `n`: once all of them
   * are processed, its record is the one `skillTotals` keeps.
   */
  predicate LastOfName(skills: seq<Skill>, i: int, n: int)
    requires 0 <= i < n <= |skills|
  {
    forall j :: i < j < n ==> skills[j].name != skills[i].name
  }

  /**
   * `calculateTotals(skills, states)`: for every skill, the record of the
   * costs its window counts (an empty record when the target is not after
   * the current level), and one global record accumulated alongside.
   */
  method CalculateTotals(skills: seq<Skill>, states: map<string, int>)
    returns (skillTotals: map<string, Tally>, globalTotals: Tally)
    ensures globalTotals == AddAll(EmptyTally, AllCosts(skills, states))
    ensures skillTotals == SkillRecords(skills, states)
    ensures skillTotals.Keys == Names(skills)
    ensures forall i :: 0 <= i < |skills| && LastOfName(skills, i, |skills|) ==>
              skillTotals[skills[i].name] == PerSkill(skills[i], states)
  {
    skillTotals := map[];
    globalTotals := EmptyTally;
    for s := 0 to |skills|
      invariant globalTotals == AddAll(EmptyTally, AllCosts(skills[..s], states))
      invariant skillTotals == SkillRecords(skills[..s], states)
    {
      var skill := skills[s];
      ghost var before := AllCosts(skills[..s], states);
      assert skills[..s + 1][..s] == skills[..s];
      var current;
      current, globalTotals := SkillTotals(skill, states, globalTotals);
      AddAllConcat(EmptyTally, before, SkillCosts(skill, WindowOf(skill, states)));
      skillTotals := skillTotals[skill.name := current];
    }
    assert skills[..|skills|] == skills;
    SkillRecordsKeys(skills, states);
    SkillRecordsLast(skills, states);
  }

  /** `skillTotals[skill.name] = current` for each skill in turn: a later skill of the same name overwrites. */
  function SkillRecords(skills: seq<Skill>, states: map<string, int>): map<string, Tally>
    decreases |skills|
  {
    if skills == [] then map[]
    else
      var last := skills[|skills| - 1];
      SkillRecords(skills[..|skills| - 1], states)[last.name := PerSkill(last, states)]
  }

  /** Every skill's name has a record, and nothing else does. */
  lemma {:induction false} SkillRecordsKeys(skills: seq<Skill>, states: map<string, int>)
    ensures SkillRecords(skills, states).Keys == Names(skills)
    decreases |skills|
  {
    if skills != [] {
      SkillRecordsKeys(skills[..|skills| - 1], states);
    }
  }

  /** The record kept under a name is that of the last skill with the name. */
  lemma {:induction false} SkillRecordsLast(skills: seq<Skill>, states: map<string, int>)
    ensures forall i :: 0 <= i < |skills| && LastOfName(skills, i, |skills|) ==>
              skills[i].name in SkillRecords(skills, states)
              && SkillRecords(skills, states)[skills[i].name] == PerSkill(skills[i], states)
    decreases |skills|
  {
    if skills != [] {
      var n := |skills| - 1;
      var init := skills[..n];
      SkillRecordsLast(init, states);
      forall i | 0 <= i < |skills| && LastOfName(skills, i, |skills|)
        ensures skills[i].name in SkillRecords(skills, states)
                && SkillRecords(skills, states)[skills[i].name] == PerSkill(skills[i], states)
      {
        if i < n {
          assert skills[n].name != skills[i].name;
          assert init[i] == skills[i];
          assert LastOfName(init, i, n);
        }
      }
    }
  }

  /** The names of the skills. */
  function Names(skills: seq<Skill>): (r: set<string>)
    ensures forall x :: x in r <==> exists i :: 0 <= i < |skills| && skills[i].name == x
    decreases |skills|
  {
    if skills == [] then {}
    else
      var init := skills[..|skills| - 1];
      assert forall i :: 0 <= i < |init| ==> init[i] == skills[i];
      Names(init) + {skills[|skills| - 1].name}
  }

  /**
   * The body of `skills.forEach`: the skill's window from the page state,
   * the early return when no upgrade is needed, else the costs of its
   * tiers, added to the skill's record and to the global one.
   */
  method SkillTotals(skill: Skill, states: map<string, int>, globalTotals: Tally)
    returns (current: Tally, globalAfter: Tally)
    ensures current == PerSkill(skill, states)
    ensures globalAfter == AddAll(globalTotals, SkillCosts(skill, WindowOf(skill, states)))
  {
    var id := skill.id;
    var curT := Setting(states, id + "-curTier", skill.startingTier);
    var curR := Setting(states, id + "-curRank", 0);
    var targetT := Setting(states, id + "-targetTier", skill.startingTier);
    var targetR := Setting(states, id + "-targetRank", 0);
    var w := Window(Level(curT, curR), Level(targetT, targetR));
    assert w == WindowOf(skill, states);
    current := EmptyTally;
    globalAfter := globalTotals;
    if targetT < curT || (targetT == curT && targetR <= curR) {
      NoUpgradeNoCosts(skill, w);
      return;
    }
    var tiers := skill.rankUps;
    for i := 0 to |tiers|
      invariant current == AddAll(EmptyTally, TierCosts(w, skill.startingTier, tiers[..i]))
      invariant globalAfter == AddAll(globalTotals, TierCosts(w, skill.startingTier, tiers[..i]))
    {
      ghost var done := TierCosts(w, skill.startingTier, tiers[..i]);
      var tu := tiers[i];
      current, globalAfter := TierTotals(w, skill.startingTier, tu, current, globalAfter);
      assert tiers[..i + 1][..i] == tiers[..i];
      AddAllConcat(EmptyTally, done, RankCosts(w, skill.startingTier, tu.tier, tu.ranks));
      AddAllConcat(globalTotals, done, RankCosts(w, skill.startingTier, tu.tier, tu.ranks));
    }
    assert tiers[..|tiers|] == tiers;
  }

  /**
   * The body of `rank_ups.forEach` for one tier: each rank's reached level,
   * and the rank's costs added to both records when the window counts it.
   */
  method TierTotals(w: Window, startingTier: int, tu: TierUp, current: Tally, globalTotals: Tally)
    returns (currentAfter: Tally, globalAfter: Tally)
    ensures currentAfter == AddAll(current, RankCosts(w, startingTier, tu.tier, tu.ranks))
    ensures globalAfter == AddAll(globalTotals, RankCosts(w, startingTier, tu.tier, tu.ranks))
  {
    var tier := tu.tier;
    currentAfter, globalAfter := current, globalTotals;
    for j := 0 to |tu.ranks|
      invariant currentAfter == AddAll(current, RankCosts(w, startingTier, tier, tu.ranks[..j]))
      invariant globalAfter == AddAll(globalTotals, RankCosts(w, startingTier, tier, tu.ranks[..j]))
    {
      var r := tu.ranks[j];
      var rank := r.rank;
      var nextT, nextR;
      if rank == 0 && tier > startingTier {
        nextT, nextR := tier, 0;
      } else {
        nextT, nextR := tier, rank + 1;
      }
      assert Level(nextT, nextR) == Reached(startingTier, tier, rank);
      var isAheadOfCurrent := nextT > w.cur.tier || (nextT == w.cur.tier && nextR > w.cur.rank);
      var isAtOrBeforeTarget := nextT < w.target.tier || (nextT == w.target.tier && nextR <= w.target.rank);
      ghost var prefix := RankCosts(w, startingTier, tier, tu.ranks[..j]);
      assert tu.ranks[..j + 1][..j] == tu.ranks[..j];
      assert isAheadOfCurrent && isAtOrBeforeTarget <==> Counted(w, Reached(startingTier, tier, rank));
      if isAheadOfCurrent && isAtOrBeforeTarget {
        assert RankCosts(w, startingTier, tier, tu.ranks[..j + 1]) == prefix + r.cost;
        currentAfter := AddCosts(currentAfter, r.cost);
        globalAfter := AddCosts(globalAfter, r.cost);
        AddAllConcat(current, prefix, r.cost);
        AddAllConcat(globalTotals, prefix, r.cost);
      } else {
        assert RankCosts(w, startingTier, tier, tu.ranks[..j + 1]) == prefix + [];
        assert prefix + [] == prefix;
      }
    }
    assert tu.ranks[..|tu.ranks|] == tu.ranks;
  }

  /** `r.cost.forEach(c => rec[c.item] = (rec[c.item] || 0) + c.amount)` */
  method AddCosts(t: Tally, cs: seq<Cost>) returns (r: Tally)
    ensures r == AddAll(t, cs)
  {
    r := t;
    for k := 0 to |cs|
      invariant r == AddAll(t, cs[..k])
    {
      AddAllSnoc(t, cs[..k], cs[k]);
      assert cs[..k + 1] == cs[..k] + [cs[k]];
      r := Add(r, cs[k]);
    }
    assert cs[..|cs|] == cs;
  }

  lemma {:induction false} AddAllConcat(t: Tally, xs: seq<Cost>, ys: seq<Cost>)
    ensures AddAll(t, xs + ys) == AddAll(AddAll(t, xs), ys)
    decreases |ys|
  {
    if ys == [] {
      assert xs + ys == xs;
    } else {
      var init := ys[..|ys| - 1];
      assert xs + ys == (xs + init) + [ys[|ys| - 1]];
      AddAllSnoc(t, xs + init, ys[|ys| - 1]);
      AddAllConcat(t, xs, init);
    }
  }

  // ---------------------------------------------------------------------
  // Properties
  // ---------------------------------------------------------------------

  /** When the target is not after the current level, no rank is counted. */
  lemma {:induction false} NoUpgradeNoCosts(skill: Skill, w: Window)
    requires !Before(w.cur, w.target)
    ensures SkillCosts(skill, w) == []
  {
    NoUpgradeTiers(w, skill.startingTier, skill.rankUps);
  }

  lemma {:induction false} NoUpgradeTiers(w: Window, startingTier: int, tiers: seq<TierUp>)
    requires !Before(w.cur, w.target)
    ensures TierCosts(w, startingTier, tiers) == []
    decreases |tiers|
  {
    if tiers != [] {
      var tu := tiers[|tiers| - 1];
      NoUpgradeTiers(w, startingTier, tiers[..|tiers| - 1]);
      NoUpgradeRanks(w, startingTier, tu.tier, tu.ranks);
    }
  }

  lemma {:induction false} NoUpgradeRanks(w: Window, startingTier: int, tier: int, ranks: seq<RankUp>)
    requires !Before(w.cur, w.target)
    ensures RankCosts(w, startingTier, tier, ranks) == []
    decreases |ranks|
  {
    if ranks != [] {
      NoUpgradeRanks(w, startingTier, tier, ranks[..|ranks| - 1]);
    }
  }

  /** The sum, over the skills, of what each skill's own record holds for `item`. */
  function SkillSum(skills: seq<Skill>, states: map<string, int>, item: string): int
    decreases |skills|
  {
    if skills == [] then 0
    else SkillSum(skills[..|skills| - 1], states, item) + Amount(PerSkill(skills[|skills| - 1], states), item)
  }

  /** For every item, the global record holds the sum of the skills' records. */
  lemma {:induction false} GlobalIsSumOfSkills(skills: seq<Skill>, states: map<string, int>, item: string)
    ensures Amount(AddAll(EmptyTally, AllCosts(skills, states)), item) == SkillSum(skills, states, item)
    decreases |skills|
  {
    AddAllAmount(EmptyTally, AllCosts(skills, states), item);
    if skills != [] {
      var s := skills[|skills| - 1];
      var init := skills[..|skills| - 1];
      GlobalIsSumOfSkills(init, states, item);
      AddAllAmount(EmptyTally, AllCosts(init, states), item);
      AddAllAmount(EmptyTally, SkillCosts(s, WindowOf(s, states)), item);
      SumOfConcat(AllCosts(init, states), SkillCosts(s, WindowOf(s, states)), item);
    }
  }

  /**
   * Upgrading in two steps needs what upgrading at once needs: for
   * `cur <= mid <= target`, every item's total over the window splits at
   * `mid`.
   */
  lemma WindowSplit(skill: Skill, cur: Level, mid: Level, target: Level, item: string)
    requires AtOrBefore(cur, mid) && AtOrBefore(mid, target)
    ensures SumOf(SkillCosts(skill, Window(cur, target)), item)
            == SumOf(SkillCosts(skill, Window(cur, mid)), item) + SumOf(SkillCosts(skill, Window(mid, target)), item)
  {
    SplitTiers(skill.startingTier, skill.rankUps, cur, mid, target, item);
  }

  lemma {:induction false} SplitTiers(startingTier: int, tiers: seq<TierUp>, cur: Level, mid: Level, target: Level,
                                      item: string)
    requires AtOrBefore(cur, mid) && AtOrBefore(mid, target)
    ensures SumOf(TierCosts(Window(cur, target), startingTier, tiers), item)
            == SumOf(TierCosts(Window(cur, mid), startingTier, tiers), item)
               + SumOf(TierCosts(Window(mid, target), startingTier, tiers), item)
    decreases |tiers|
  {
    if tiers != [] {
      var tu := tiers[|tiers| - 1];
      var init := tiers[..|tiers| - 1];
      SplitTiers(startingTier, init, cur, mid, target, item);
      SplitRanks(startingTier, tu.tier, tu.ranks, cur, mid, target, item);
      SumOfConcat(TierCosts(Window(cur, target), startingTier, init),
                  RankCosts(Window(cur, target), startingTier, tu.tier, tu.ranks), item);
      SumOfConcat(TierCosts(Window(cur, mid), startingTier, init),
                  RankCosts(Window(cur, mid), startingTier, tu.tier, tu.ranks), item);
      SumOfConcat(TierCosts(Window(mid, target), startingTier, init),
                  RankCosts(Window(mid, target), startingTier, tu.tier, tu.ranks), item);
    }
  }

  lemma {:induction false} SplitRanks(startingTier: int, tier: int, ranks: seq<RankUp>,
                                      cur: Level, mid: Level, target: Level, item: string)
    requires AtOrBefore(cur, mid) && AtOrBefore(mid, target)
    ensures SumOf(RankCosts(Window(cur, target), startingTier, tier, ranks), item)
            == SumOf(RankCosts(Window(cur, mid), startingTier, tier, ranks), item)
               + SumOf(RankCosts(Window(mid, target), startingTier, tier, ranks), item)
    decreases |ranks|
  {
    if ranks != [] {
      var r := ranks[|ranks| - 1];
      var init := ranks[..|ranks| - 1];
      var l := Reached(startingTier, tier, r.rank);
      SplitRanks(startingTier, tier, init, cur, mid, target, item);
      var whole := if Counted(Window(cur, target), l) then r.cost else [];
      var first := if Counted(Window(cur, mid), l) then r.cost else [];
      var second := if Counted(Window(mid, target), l) then r.cost else [];
      SumOfConcat(RankCosts(Window(cur, target), startingTier, tier, init), whole, item);
      SumOfConcat(RankCosts(Window(cur, mid), startingTier, tier, init), first, item);
      SumOfConcat(RankCosts(Window(mid, target), startingTier, tier, init), second, item);
      // Exactly one of the two halves counts a level the whole window counts.
      assert SumOf(whole, item) == SumOf(first, item) + SumOf(second, item);
    }
  }
}
