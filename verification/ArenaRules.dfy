/** The Arena's numbers (ArenaRules.cs): immutable tables, and the three expressions a run settles with. */
module ArenaRules {
  datatype Rules = Rules(
    startingLife: int,
    startingCoins: int,
    selectableCount: nat,
    characterRerollCost: int,
    randomCharacterBonus: int,
    shopRerollCost: int,
    interestPer: int,
    maxInterest: int,
    characterSelectSeconds: int,
    shopSeconds: int,
    graceSeconds: int,
    checkinSeconds: int,
    matchDeadlineSeconds: int,
    healthRoundValues: seq<int>,
    currencyPerRound: seq<int>,
    currencyForWin: int,
    currencyForWinStreak: seq<int>,
    currencyForLoseStreak: seq<int>,
    itemXpPerLevel: seq<int>,
    maxItemsInInventory: nat,
    offersPerPage: nat,
    shopPages: nat)

  /** What every rule set of the Arena satisfies: timers that pass, health that a loss lowers, no negative pay. */
  ghost predicate Playable(rules: Rules) {
    && 0 < rules.startingLife
    && 0 <= rules.startingCoins
    && 0 < rules.selectableCount
    && 0 <= rules.characterRerollCost
    && 0 <= rules.randomCharacterBonus
    && 0 <= rules.maxInterest
    && 0 < rules.characterSelectSeconds + rules.graceSeconds
    && 0 < rules.shopSeconds + rules.graceSeconds
    && 0 < rules.checkinSeconds
    && 0 < rules.matchDeadlineSeconds
    && rules.healthRoundValues != []
    && (forall v | v in rules.healthRoundValues :: 0 < v)
    && 0 <= rules.currencyForWin
    && (forall v | v in rules.currencyPerRound :: 0 <= v)
    && (forall v | v in rules.currencyForWinStreak :: 0 <= v)
    && (forall v | v in rules.currencyForLoseStreak :: 0 <= v)
    && (forall l | 1 <= l < |rules.itemXpPerLevel| :: 0 < rules.itemXpPerLevel[l])
  }

  function Clamp(x: int, lo: int, hi: int): int {
    if x < lo then lo else if x > hi then hi else x
  }

  function Max(a: int, b: int): int {
    if a < b then b else a
  }

  function Min(a: int, b: int): int {
    if a < b then a else b
  }

  /** The health a team losing the round loses (every scalar is 1.0). */
  function LifeLost(rules: Rules, round: int): int
    requires rules.healthRoundValues != []
  {
    rules.healthRoundValues[Clamp(round - 1, 0, |rules.healthRoundValues| - 1)]
  }

  /** Interest on coins kept; a balance is never negative, so the division's rounding does not matter. */
  function Interest(rules: Rules, coins: int): int {
    Min(coins / Max(1, rules.interestPer), rules.maxInterest)
  }

  function At(table: seq<int>, index: int): int {
    if |table| == 0 then 0 else table[Clamp(index, 0, |table| - 1)]
  }

  /** A table's entry, counted from 0; beyond its end, its last one. */
  ghost function Entry(table: seq<int>, i: int): int {
    if table == [] then 0 else if i < 0 then table[0] else if i < |table| then table[i] else table[|table| - 1]
  }

  function Least(table: seq<int>): (m: int)
    requires table != []
    ensures m in table
    ensures forall v | v in table :: m <= v
  {
    assert table == [table[0]] + table[1..];
    if |table| == 1 then table[0] else Min(table[0], Least(table[1..]))
  }

  /** How many losses a team can take: the last of them is the one that ends it. */
  function LossLimit(rules: Rules): int
    requires Playable(rules)
  {
    (rules.startingLife - 1) / Least(rules.healthRoundValues) + 1
  }

  lemma Monotone(m: int, a: int, b: int)
    requires 0 <= m && a <= b
    ensures m * a <= m * b
  {
    assert m * b == m * a + m * (b - a);
  }

  lemma QuotientBound(k: int, m: int, x: int)
    requires 0 < m && m * k <= x
    ensures k <= x / m
  {
    var q := x / m;
    assert x < m * q + m == m * (q + 1);
    if q < k {
      Monotone(m, q + 1, k);
    }
  }
}
