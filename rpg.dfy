/** Progression rules of the hero/mission game: base rewards by difficulty,
    mission construction, the level-up loop, attribute points, the
    attribute-dependent reward bonus and the progress fraction.

    Every quantity is an integer. `Math.round(y)` is `floor(y + 1/2)`, and
    Dafny's `/` by a positive divisor is floor division, so a rounded
    product is written as one integer division. */
module Rpg {

  /** A mission's tier. `Other` stands for any tag a stored mission may carry
      that is none of the three known ones. */
  datatype Difficulty = Easy | Medium | Hard | Other(tag: string)

  /** The three attributes a point can be spent on. */
  datatype Attribute = Strength | Intelligence | Vitality

  datatype Hero = Hero(
    level: int,
    currentXp: int,
    xpToNextLevel: int,
    strength: int,
    intelligence: int,
    vitality: int,
    unspentPoints: int)

  datatype Mission = Mission(
    id: string,
    title: string,
    difficulty: Difficulty,
    xpReward: int,
    completed: bool)

  /** Attribute points granted by one level-up. */
  const PointsPerLevel := 3

  const InitialHero := Hero(1, 0, 100, 1, 1, 1, 0)

  /** A hero as every transition of the game keeps it. */
  ghost predicate HeroInvariant(h: Hero) {
    h.level >= 1 && 0 <= h.currentXp < h.xpToNextLevel &&
    h.strength >= 0 && h.intelligence >= 0 && h.vitality >= 0 &&
    h.unspentPoints >= 0
  }

  // ---------------------------------------------------------------------
  // Base rewards and missions

  /** Base experience of a tier; an unknown tier is worth nothing. */
  function XpRewardByDifficulty(d: Difficulty): (r: int)
    ensures r >= 0
    ensures r > 0 <==> !d.Other?
  {
    match d
    case Easy => 10
    case Medium => 25
    case Hard => 50
    case Other(_) => 0
  }

  lemma BaseRewardTable()
    ensures XpRewardByDifficulty(Easy) == 10
    ensures XpRewardByDifficulty(Medium) == 25
    ensures XpRewardByDifficulty(Hard) == 50
    ensures forall tag :: XpRewardByDifficulty(Other(tag)) == 0
  {
  }

  /** A mission whose base reward is the one its tier prescribes. */
  predicate RewardMatchesDifficulty(m: Mission) {
    m.xpReward == XpRewardByDifficulty(m.difficulty)
  }

  /** A fresh mission; the identifier, which the program draws from the
      clock, is supplied by the caller. */
  function CreateMission(id: string, title: string, d: Difficulty): (m: Mission)
    ensures m.id == id && m.title == title && m.difficulty == d
    ensures !m.completed
    ensures RewardMatchesDifficulty(m)
  {
    Mission(id, title, d, XpRewardByDifficulty(d), false)
  }

  const DefaultMissions := [
    CreateMission("1", "Arrumar o quarto", Easy),
    CreateMission("2", "Estudar 30 minutos", Medium),
    CreateMission("3", "Fazer exercício físico 20 minutos", Hard)
  ]

  lemma DefaultMissionsShape()
    ensures |DefaultMissions| == 3
    ensures DefaultMissions[0].difficulty == Easy && DefaultMissions[0].xpReward == 10
    ensures DefaultMissions[1].difficulty == Medium && DefaultMissions[1].xpReward == 25
    ensures DefaultMissions[2].difficulty == Hard && DefaultMissions[2].xpReward == 50
    ensures forall i :: 0 <= i < 3 ==> !DefaultMissions[i].completed && RewardMatchesDifficulty(DefaultMissions[i])
    ensures forall i, j :: 0 <= i < j < 3 ==> DefaultMissions[i].id != DefaultMissions[j].id
  {
  }

  lemma InitialHeroIsValid()
    ensures HeroInvariant(InitialHero)
  {
  }

  // ---------------------------------------------------------------------
  // Experience and levels

  /** The threshold after a level-up: `Math.round(t * 1.2)`. */
  function NextThreshold(t: int): (r: int)
    ensures 10 * r <= 12 * t + 5 < 10 * r + 10
    ensures t >= 1 ==> r >= t
    ensures t >= 3 ==> r > t
  {
    (12 * t + 5) / 10
  }

  /** The level-up loop ends: experience `xp` is already below threshold `t`,
      or `t` is positive, so every pass pays at least one point. With a
      threshold of 0 or below and experience that reaches it, the loop of the
      program never ends. */
  predicate Settles(xp: int, t: int) {
    t >= 1 || xp < t
  }

  /** The level-up loop of the experience gain, one pass per recursive call:
      while the experience reaches the threshold, pay the threshold, go up a
      level, raise the threshold and grant the level's points. */
  function LevelUp(h: Hero): (r: Hero)
    requires Settles(h.currentXp, h.xpToNextLevel)
    ensures r.currentXp < r.xpToNextLevel
    ensures h.currentXp >= 0 ==> r.currentXp >= 0
    ensures r.xpToNextLevel >= h.xpToNextLevel
    ensures r.level >= h.level && r.unspentPoints >= h.unspentPoints
    ensures r.strength == h.strength && r.intelligence == h.intelligence && r.vitality == h.vitality
    decreases h.currentXp
  {
    if h.currentXp < h.xpToNextLevel then h
    else LevelUp(h.(currentXp := h.currentXp - h.xpToNextLevel,
                    level := h.level + 1,
                    xpToNextLevel := NextThreshold(h.xpToNextLevel),
                    unspentPoints := h.unspentPoints + PointsPerLevel))
  }

  /** The hero after gaining `gainedXp` experience. */
  function AfterGain(hero: Hero, gainedXp: int): Hero
    requires Settles(hero.currentXp + gainedXp, hero.xpToNextLevel)
  {
    LevelUp(hero.(currentXp := hero.currentXp + gainedXp))
  }

  /** `gainXp`: add the experience, then level up as long as it reaches the
      threshold, carrying the surplus forward. */
  method GainXp(hero: Hero, gainedXp: int) returns (r: Hero)
    requires Settles(hero.currentXp + gainedXp, hero.xpToNextLevel)
    ensures r == AfterGain(hero, gainedXp)
    ensures r.currentXp < r.xpToNextLevel
    ensures hero.currentXp + gainedXp >= 0 ==> r.currentXp >= 0
  {
    var currentXp := hero.currentXp + gainedXp;
    var level := hero.level;
    var xpToNextLevel := hero.xpToNextLevel;
    var unspentPoints := hero.unspentPoints;

    while currentXp >= xpToNextLevel
      invariant Settles(currentXp, xpToNextLevel)
      invariant LevelUp(hero.(level := level, currentXp := currentXp,
                              xpToNextLevel := xpToNextLevel, unspentPoints := unspentPoints))
                == AfterGain(hero, gainedXp)
      decreases currentXp
    {
      currentXp := currentXp - xpToNextLevel;
      level := level + 1;
      xpToNextLevel := NextThreshold(xpToNextLevel);
      unspentPoints := unspentPoints + PointsPerLevel;
    }

    r := hero.(level := level, currentXp := currentXp,
               xpToNextLevel := xpToNextLevel, unspentPoints := unspentPoints);
  }

  /** The threshold after `k` level-ups starting from threshold `t`. */
  function ThresholdAfter(t: int, k: nat): int
    decreases k
  {
    if k == 0 then t else ThresholdAfter(NextThreshold(t), k - 1)
  }

  /** The `k` thresholds paid, in order, by `k` level-ups from threshold `t`. */
  function ThresholdsPaid(t: int, k: nat): seq<int>
    decreases k
  {
    if k == 0 then [] else [t] + ThresholdsPaid(NextThreshold(t), k - 1)
  }

  function Sum(s: seq<int>): int {
    if s == [] then 0 else s[0] + Sum(s[1..])
  }

  /** How many level-ups `xp` experience buys from threshold `t`. */
  function LevelUpCount(xp: int, t: int): nat
    requires Settles(xp, t)
    decreases xp
  {
    if xp < t then 0 else 1 + LevelUpCount(xp - t, NextThreshold(t))
  }

  /** Each of `k` level-ups raises the level by one and grants three points;
      the experience given up is exactly the sum of the thresholds paid. */
  lemma {:induction false} LevelUpAccounting(h: Hero)
    requires Settles(h.currentXp, h.xpToNextLevel)
    ensures var k := LevelUpCount(h.currentXp, h.xpToNextLevel);
            var r := LevelUp(h);
            r.level == h.level + k &&
            r.unspentPoints == h.unspentPoints + PointsPerLevel * k &&
            r.xpToNextLevel == ThresholdAfter(h.xpToNextLevel, k) &&
            h.currentXp == r.currentXp + Sum(ThresholdsPaid(h.xpToNextLevel, k))
    decreases h.currentXp
  {
    if h.currentXp >= h.xpToNextLevel {
      LevelUpAccounting(h.(currentXp := h.currentXp - h.xpToNextLevel,
                           level := h.level + 1,
                           xpToNextLevel := NextThreshold(h.xpToNextLevel),
                           unspentPoints := h.unspentPoints + PointsPerLevel));
    }
  }

  /** `gainXp` seen from its caller: with `k` level-ups, the level rises by
      `k`, the points by `3k`, and the old experience plus the gain equals the
      new experience plus the `k` thresholds paid. */
  lemma GainXpAccounting(hero: Hero, gainedXp: int)
    requires Settles(hero.currentXp + gainedXp, hero.xpToNextLevel)
    ensures var k := LevelUpCount(hero.currentXp + gainedXp, hero.xpToNextLevel);
            var r := AfterGain(hero, gainedXp);
            r.level == hero.level + k &&
            r.unspentPoints == hero.unspentPoints + PointsPerLevel * k &&
            r.xpToNextLevel == ThresholdAfter(hero.xpToNextLevel, k) &&
            hero.currentXp + gainedXp == r.currentXp + Sum(ThresholdsPaid(hero.xpToNextLevel, k)) &&
            r.xpToNextLevel >= hero.xpToNextLevel &&
            r.strength == hero.strength && r.intelligence == hero.intelligence && r.vitality == hero.vitality
  {
    LevelUpAccounting(hero.(currentXp := hero.currentXp + gainedXp));
  }

  /** The thresholds paid are positive and never decrease. */
  lemma {:induction false} ThresholdsPaidGrow(t: int, k: nat)
    requires t >= 1
    ensures |ThresholdsPaid(t, k)| == k
    ensures forall i :: 0 <= i < k ==> ThresholdsPaid(t, k)[i] >= t
    ensures forall i, j :: 0 <= i <= j < k ==> ThresholdsPaid(t, k)[i] <= ThresholdsPaid(t, k)[j]
    ensures ThresholdAfter(t, k) >= t
    ensures Sum(ThresholdsPaid(t, k)) >= k
    decreases k
  {
    if k > 0 {
      ThresholdsPaidGrow(NextThreshold(t), k - 1);
      var rest := ThresholdsPaid(NextThreshold(t), k - 1);
      assert ThresholdsPaid(t, k) == [t] + rest;
      forall i, j | 0 <= i <= j < k
        ensures ThresholdsPaid(t, k)[i] <= ThresholdsPaid(t, k)[j]
      {
        if i > 0 {
          assert ThresholdsPaid(t, k)[i] == rest[i - 1];
          assert ThresholdsPaid(t, k)[j] == rest[j - 1];
        } else if j > 0 {
          assert ThresholdsPaid(t, k)[j] == rest[j - 1];
        }
      }
    }
  }

  /** The number of level-ups is the unique `k` such that the first `k`
      thresholds are affordable and the next one is not. */
  lemma {:induction false} LevelUpCountIsLargestAffordable(xp: int, t: int, k: nat)
    requires t >= 1 && xp >= 0
    ensures LevelUpCount(xp, t) == k <==>
            Sum(ThresholdsPaid(t, k)) <= xp < Sum(ThresholdsPaid(t, k)) + ThresholdAfter(t, k)
    decreases k
  {
    if k == 0 {
    } else {
      var t' := NextThreshold(t);
      ThresholdsPaidGrow(t', k - 1);
      assert Sum(ThresholdsPaid(t, k)) == t + Sum(ThresholdsPaid(t', k - 1));
      if xp >= t {
        LevelUpCountIsLargestAffordable(xp - t, t', k - 1);
      }
    }
  }

  /** After any gain the hero is below its threshold again, its threshold has
      not fallen and its attributes are untouched. */
  lemma GainPreservesInvariant(h: Hero, gainedXp: int)
    requires HeroInvariant(h) && gainedXp >= 0
    ensures HeroInvariant(AfterGain(h, gainedXp))
    ensures AfterGain(h, gainedXp).xpToNextLevel >= h.xpToNextLevel
    ensures AfterGain(h, gainedXp).level >= h.level
  {
  }

  /** The fraction of the current level completed, 0 for a zero threshold. */
  function XpProgress(h: Hero): (r: real)
    ensures h.xpToNextLevel == 0 ==> r == 0.0
    ensures h.xpToNextLevel != 0 ==> r * h.xpToNextLevel as real == h.currentXp as real
  {
    if h.xpToNextLevel == 0 then 0.0 else h.currentXp as real / h.xpToNextLevel as real
  }

  lemma ProgressInUnitInterval(h: Hero)
    requires 0 <= h.currentXp < h.xpToNextLevel
    ensures 0.0 <= XpProgress(h) < 1.0
  {
  }

  lemma ProgressAfterGain(h: Hero, gainedXp: int)
    requires h.xpToNextLevel >= 1 && h.currentXp + gainedXp >= 0
    ensures 0.0 <= XpProgress(AfterGain(h, gainedXp)) < 1.0
  {
    ProgressInUnitInterval(AfterGain(h, gainedXp));
  }

  // ---------------------------------------------------------------------
  // Attribute points

  function AttributeValue(h: Hero, a: Attribute): int {
    match a
    case Strength => h.strength
    case Intelligence => h.intelligence
    case Vitality => h.vitality
  }

  /** The three attributes together with the points not yet spent. */
  function PointTotal(h: Hero): int {
    h.strength + h.intelligence + h.vitality + h.unspentPoints
  }

  /** Spend one point on `a`; without points the hero is returned as is. */
  function AllocatePoint(h: Hero, a: Attribute): (r: Hero)
    ensures h.unspentPoints <= 0 ==> r == h
    ensures h.unspentPoints > 0 ==>
              r.unspentPoints == h.unspentPoints - 1 &&
              AttributeValue(r, a) == AttributeValue(h, a) + 1 &&
              forall b :: b != a ==> AttributeValue(r, b) == AttributeValue(h, b)
    ensures r.level == h.level && r.currentXp == h.currentXp && r.xpToNextLevel == h.xpToNextLevel
    ensures PointTotal(r) == PointTotal(h)
  {
    if h.unspentPoints <= 0 then h
    else
      var h' := h.(unspentPoints := h.unspentPoints - 1);
      match a
      case Strength => h'.(strength := h.strength + 1)
      case Intelligence => h'.(intelligence := h.intelligence + 1)
      case Vitality => h'.(vitality := h.vitality + 1)
  }

  lemma AllocatePreservesInvariant(h: Hero, a: Attribute)
    requires HeroInvariant(h)
    ensures HeroInvariant(AllocatePoint(h, a))
  {
  }

  /** Spend one point per entry of `choices`, in order. */
  function AllocateAll(h: Hero, choices: seq<Attribute>): Hero
    decreases |choices|
  {
    if choices == [] then h else AllocateAll(AllocatePoint(h, choices[0]), choices[1..])
  }

  /** Spending exactly as many points as the hero holds empties the pool,
      keeps the total, and any further allocation changes nothing. */
  lemma {:induction false} SpendAllPoints(h: Hero, choices: seq<Attribute>, extra: Attribute)
    requires h.unspentPoints >= 0 && |choices| == h.unspentPoints
    ensures AllocateAll(h, choices).unspentPoints == 0
    ensures PointTotal(AllocateAll(h, choices)) == PointTotal(h)
    ensures AllocatePoint(AllocateAll(h, choices), extra) == AllocateAll(h, choices)
    decreases |choices|
  {
    if choices != [] {
      SpendAllPoints(AllocatePoint(h, choices[0]), choices[1..], extra);
    }
  }

  // ---------------------------------------------------------------------
  // Reward bonus

  /** The attribute that boosts a tier: vitality for easy, intelligence for
      medium, strength for hard. An unknown tier matches no case of the
      switch, so its multiplier stays 1, which is an attribute of 0. */
  function BonusAttribute(h: Hero, d: Difficulty): int {
    match d
    case Easy => h.vitality
    case Medium => h.intelligence
    case Hard => h.strength
    case Other(_) => 0
  }

  /** `round(xpReward * (1 + 0.02 * a))`, that is, the base reward times
      `(50 + a) / 50`, rounded half up. */
  function MissionXpWithBonus(h: Hero, m: Mission): (r: int)
    ensures var exact := m.xpReward * (50 + BonusAttribute(h, m.difficulty));
            50 * r - 25 <= exact < 50 * r + 25
  {
    (m.xpReward * (50 + BonusAttribute(h, m.difficulty)) + 25) / 50
  }

  /** Raising the tier's attribute never lowers a non-negative reward. */
  lemma BonusMonotone(h: Hero, h': Hero, m: Mission)
    requires m.xpReward >= 0
    requires BonusAttribute(h, m.difficulty) <= BonusAttribute(h', m.difficulty)
    ensures MissionXpWithBonus(h, m) <= MissionXpWithBonus(h', m)
  {
  }

  /** With a non-negative attribute the bonus never takes away from the base
      reward; for an unknown tier the reward is the base reward. */
  lemma BonusAtLeastBase(h: Hero, m: Mission)
    requires m.xpReward >= 0 && BonusAttribute(h, m.difficulty) >= 0
    ensures MissionXpWithBonus(h, m) >= m.xpReward
    ensures m.difficulty.Other? ==> MissionXpWithBonus(h, m) == m.xpReward
  {
  }

  /** A valid hero earns a non-negative reward from a well-formed mission. */
  lemma BonusNonNegative(h: Hero, m: Mission)
    requires HeroInvariant(h) && RewardMatchesDifficulty(m)
    ensures MissionXpWithBonus(h, m) >= 0
  {
  }

  // ---------------------------------------------------------------------
  // Worked examples

  /** 90 of 100 plus 15: one level-up, 5 carried over, next threshold 120. */
  lemma OneLevelUpCarriesSurplus()
    ensures AfterGain(Hero(1, 90, 100, 1, 1, 1, 0), 15) == Hero(2, 5, 120, 1, 1, 1, 3)
  {
  }

  /** Experience already below a threshold of 0 needs no level-up: the loop
      does not run and only the gain is added. */
  lemma BelowZeroThresholdKeepsGain()
    ensures AfterGain(Hero(1, -5, 0, 1, 1, 1, 0), 1) == Hero(1, -4, 0, 1, 1, 1, 0)
  {
  }

  /** Vitality 5 makes an easy mission worth 11; from 0 of 10 that is one
      level-up with 1 carried over and a threshold of 12. */
  lemma EasyMissionWithVitality()
    ensures MissionXpWithBonus(Hero(1, 0, 10, 1, 1, 5, 0), CreateMission("m", "t", Easy)) == 11
    ensures AfterGain(Hero(1, 0, 10, 1, 1, 5, 0), 11) == Hero(2, 1, 12, 1, 1, 5, 3)
  {
  }
}
