# RPGLife progression rules and session, in Dafny

RPGLife turns a personal to-do list into a small role-playing game. A **hero** has a
level, experience toward the next level (`currentXp` of `xpToNextLevel`), three
attributes (strength, intelligence, vitality) and a pool of unspent attribute points.
**Missions** are tasks with a difficulty tier (easy, medium, hard) that fixes their base
experience reward. When a mission is completed, the hero gains that reward plus a bonus
of 2 % per point of the attribute that belongs to the tier. Experience that reaches the
threshold causes a level-up: the surplus carries over, the threshold grows by a factor
of 1.2 (rounded), and the hero receives three attribute points.

The project has three modules:

- `rpg.dfy`, module `Rpg`, models `src/domain/rpg.ts`. It holds the data types, the
  reward table, mission construction, the level-up loop (`GainXp`, a method with a loop
  proved against the recursive function `LevelUp`), attribute points, the reward bonus
  and the progress fraction. It also holds lemmas that count level-ups and account for
  the experience they use.
- `session.dfy`, module `Session`, models `src/hooks/useRpgLife.ts`. The class
  `Session` holds the `hero`, the `missions` and the `loading` flag. It has one method
  per operation: load, complete, add, clear completed, reset and allocate. Each method
  is specified by a pure function on the old state, and the list updates (find, map,
  filter) are functions with their own lemmas. `NormalizeHero` restores a saved hero.
- `text.dfy`, module `Text`, models `String.prototype.trim`. The mission form in
  `src/screens/HomeScreen.tsx` uses it for its blank-title guard.

Modelling choices:

- Every quantity is an integer. `Math.round(y)` is `floor(y + 1/2)`, which rounds ties
  upward as JavaScript does. A rounded threshold is therefore `(12*t + 5) / 10`, and a
  rounded bonus reward is `(xpReward*(50 + a) + 25) / 50`. Dafny's `/` by a positive
  divisor is floor division.
- `Difficulty` has a fourth case, `Other(tag)`, for any tier tag a saved mission may
  carry. This models the `default: return 0` branch of the reward table. It also models
  a bonus switch that matches no case, which leaves the multiplier at 1.
- Mission identifiers come from the clock in the program. Here they are a parameter.
- The blank-title guard is modelled as a separate method, `SubmitMission`, because in
  the program it lives in the form handler. `AddMission` appends unconditionally, as the
  hook does.
- A reset reaches memory only after the saved game has been removed. Whether the
  removal succeeded is a parameter of `ResetGame`.
- Loading follows the code as written:
  - A saved hero whose text does not parse raises an error. The error skips the rest of
    the load, so the mission list stays as it was: empty at start-up, not the default
    missions.
  - A mission list whose text does not parse also leaves the list unchanged.
  - Only a missing mission list is replaced by the defaults.
  - A read the store rejects (`ReadFailed`) makes the combined read fail before anything
    is set, so neither the hero nor the missions change.

## Model

| member | source | states |
|---|---|---|
| `Rpg.XpRewardByDifficulty` | src/domain/rpg.ts:39-50 | The base reward is never negative, and it is positive exactly for the three known tiers. |
| `Rpg.BaseRewardTable` | src/domain/rpg.ts:39-50 | Easy gives 10, medium 25 and hard 50. Any other tag gives 0. |
| `Rpg.CreateMission` | src/domain/rpg.ts:53-61 | The new mission keeps the given id, title and tier. It is not completed, and its reward is the one its tier prescribes. |
| `Rpg.DefaultMissionsShape` | src/domain/rpg.ts:64-86 | There are three seed missions, one per tier in the order easy, medium, hard, worth 10, 25 and 50. None is completed, and their ids are distinct. |
| `Rpg.InitialHeroIsValid` | src/domain/rpg.ts:28-36 | The initial hero meets the hero invariant: level at least 1, `0 <= currentXp < xpToNextLevel`, and no negative attributes or points. |
| `Rpg.NextThreshold` | src/domain/rpg.ts:100 | The result is 1.2·t rounded half up (`10r <= 12t+5 < 10r+10`). It never falls below t when t >= 1, and it is strictly larger when t >= 3. |
| `Rpg.LevelUp` | src/domain/rpg.ts:97-102 | The loop ends below the threshold. Experience that started non-negative stays non-negative. The threshold, level and points never decrease, and the three attributes are unchanged. |
| `Rpg.GainXp` | src/domain/rpg.ts:89-111 | For every start where the loop ends (`Settles`), the loop's result equals `AfterGain` (the gain followed by `LevelUp`). The invariant is that the level-up of the loop state equals the level-up of the start state. The result ends with `currentXp < xpToNextLevel`, and with `currentXp >= 0` when the gained total is non-negative. |
| `Rpg.GainXpAccounting` | src/domain/rpg.ts:89-111 | With k level-ups, the level rises by k, the points rise by 3k and the threshold is the k-th successor. Old experience plus the gain equals the new experience plus the k thresholds paid. The threshold does not fall, and the attributes are unchanged. |
| `Rpg.LevelUpAccounting` | src/domain/rpg.ts:97-102 | The same accounting holds for the level-up loop started from any hero. |
| `Rpg.ThresholdsPaidGrow` | src/domain/rpg.ts:100 | The thresholds paid are at least the starting one and never decrease, so k level-ups cost at least k experience. |
| `Rpg.LevelUpCountIsLargestAffordable` | src/domain/rpg.ts:97-102 | The number of level-ups equals k exactly when the first k thresholds are affordable and the next one is not. |
| `Rpg.GainPreservesInvariant` | src/domain/rpg.ts:89-111 | A non-negative gain keeps the hero invariant. It never lowers the threshold or the level. |
| `Rpg.XpProgress` | src/domain/rpg.ts:114-117 | A zero threshold gives 0. Otherwise the result times the threshold equals `currentXp`. |
| `Rpg.ProgressInUnitInterval` | src/domain/rpg.ts:114-117 | When `0 <= currentXp < xpToNextLevel`, the progress lies in [0, 1). |
| `Rpg.ProgressAfterGain` | src/domain/rpg.ts:114-117 | Any hero produced by a gain whose total is non-negative has progress in [0, 1). |
| `Rpg.AllocatePoint` | src/domain/rpg.ts:123-133 | With no points, the hero is returned unchanged. Otherwise the named attribute gains exactly 1, the pool loses 1, and nothing else changes. The sum of the attributes and the pool is preserved in both cases. |
| `Rpg.AllocatePreservesInvariant` | src/domain/rpg.ts:123-133 | Allocating a point keeps the hero invariant. |
| `Rpg.SpendAllPoints` | src/domain/rpg.ts:123-133 | Spending exactly as many points as the hero holds empties the pool and keeps the total. One more allocation is a no-op. |
| `Rpg.MissionXpWithBonus` | src/domain/rpg.ts:136-157 | The result is `xpReward·(1 + 0.02·a)` rounded half up (`50r - 25 <= xpReward·(50+a) < 50r + 25`). The attribute a is vitality for easy, intelligence for medium, strength for hard, and 0 for an unknown tier. |
| `Rpg.BonusMonotone` | src/domain/rpg.ts:143-156 | For a non-negative base reward, the bonus reward does not decrease as the tier's attribute grows. |
| `Rpg.BonusAtLeastBase` | src/domain/rpg.ts:136-157 | With a non-negative base reward and attribute, the bonus reward is at least the base. For an unknown tier it equals the base. |
| `Rpg.BonusNonNegative` | src/domain/rpg.ts:136-157 | A valid hero earns a non-negative reward from a mission whose reward matches its tier. |
| `Rpg.OneLevelUpCarriesSurplus` | src/domain/rpg.ts:89-111 | 90 of 100 plus 15 gives level 2, 5 experience, threshold 120 and 3 points. |
| `Rpg.EasyMissionWithVitality` | src/domain/rpg.ts:136-157 | Vitality 5 makes an easy mission worth 11. From 0 of 10, that gives level 2, 1 experience, threshold 12 and 3 points. |
| `Rpg.BelowZeroThresholdKeepsGain` | src/domain/rpg.ts:97-102 | Experience of -5 against a threshold of 0, plus 1, gives -4 with no level-up: the loop does not run. |
| `Text.TrimStart` | src/screens/HomeScreen.tsx:82 | The result is the suffix of the input after its leading white space, and it does not start with white space. |
| `Text.TrimEnd` | src/screens/HomeScreen.tsx:82 | The result is the prefix of the input before its trailing white space, and it does not end with white space. |
| `Text.Trim` | src/screens/HomeScreen.tsx:82 | The result is empty exactly when the input is all white space. Otherwise it is the slice after the leading white space, it neither starts nor ends with white space, and only white space follows it. |
| `Session.FixNumber` | src/hooks/useRpgLife.ts:32-36 | A number that is not NaN is kept. A missing value, NaN or a non-number falls back to the default. |
| `Session.NormalizedHero` | src/hooks/useRpgLife.ts:24-44 | A present level, experience or threshold is taken as stored, without sanitising. A missing one comes from the initial hero. Each of the four attribute and point fields keeps a stored number, and falls back to its initial value when it is missing, NaN or not a number. |
| `Session.NormalizeHero` | src/hooks/useRpgLife.ts:24-44 | Spreading the record over the initial hero and then patching four fields gives `NormalizedHero`. A well-formed saved hero passes through unchanged. |
| `Session.NormalizeRoundTrip` | src/hooks/useRpgLife.ts:24-44 | Normalising the saved form of a hero gives back that hero, and normalising is idempotent. |
| `Session.NormalizeEmpty` | src/hooks/useRpgLife.ts:26-29 | A saved object with no fields restores to the initial hero. |
| `Session.FindById` | src/hooks/useRpgLife.ts:97 | The result is the index of the first mission with that id, or none when no mission has it. |
| `Session.MarkCompleted` | src/hooks/useRpgLife.ts:110-114 | Length and order are kept. Exactly the missions with a matching id become completed, and every other mission is unchanged. |
| `Session.WithoutCompleted` | src/hooks/useRpgLife.ts:124-126 | A mission is kept exactly when it was in the list and is not completed. |
| `Session.WithoutCompletedAppend` | src/hooks/useRpgLife.ts:124-126 | Clearing distributes over concatenation, so the remaining missions keep their relative order. |
| `Session.WithoutCompletedIdempotent` | src/hooks/useRpgLife.ts:124-126 | Clearing twice is the same as clearing once. |
| `Session.WithoutCompletedCount` | src/hooks/useRpgLife.ts:124-126 | The list loses exactly as many entries as it had completed missions, and no completed mission remains. |
| `Session.CompleteTwiceIsOnce` | src/hooks/useRpgLife.ts:96-115 | After one completion, the id no longer grants experience, and a second completion is a no-op. |
| `Session.CompletePreservesConsistency` | src/hooks/useRpgLife.ts:96-115 | A completion keeps the hero invariant, and it keeps every mission's reward tied to its tier. |
| `Session.Session.constructor` | src/hooks/useRpgLife.ts:47-49 | Before loading, the session holds the initial hero, no missions, and `loading` set to true. |
| `Session.Session.Load` | src/hooks/useRpgLife.ts:53-76 | A rejected read of either key changes nothing. Otherwise a parsed hero is normalised, and a missing hero is kept. A missing list becomes the default missions, and a parsed list is taken as saved. Unparsable text leaves the rest as it was. Loading ends with `loading` false. |
| `Session.Session.CompleteMission` | src/hooks/useRpgLife.ts:96-115 | The new state is `Completed` of the old state. It is a no-op for an unknown or already-completed mission. Otherwise the hero becomes `AfterGain(h, MissionXpWithBonus(h, m))` with h the hero before the gain, and the missions are marked completed. Consistency is kept. |
| `Session.Session.AddMission` | src/hooks/useRpgLife.ts:118-121 | Exactly one new mission is appended at the end. Every earlier mission and the hero are unchanged. |
| `Session.Session.SubmitMission` | src/screens/HomeScreen.tsx:81-88 | A title that is blank after trimming leaves the list unchanged. Any other title is added in trimmed form. |
| `Session.Session.ClearCompletedMissions` | src/hooks/useRpgLife.ts:124-126 | The list becomes `WithoutCompleted` of the old list, and the hero is unchanged. |
| `Session.Session.ResetGame` | src/hooks/useRpgLife.ts:129-138 | After a successful removal, the state is the initial hero and the default missions. A failed removal changes nothing. |
| `Session.Session.AllocateHeroPoint` | src/hooks/useRpgLife.ts:141-143 | The hero becomes `AllocatePoint` of the old hero, and the missions are unchanged. |
| `Session.FirstStart` | src/hooks/useRpgLife.ts:47-70 | A start with nothing saved ends with the initial hero and the default missions. |
| `Session.ClearKeepsOrder` | src/hooks/useRpgLife.ts:124-126 | Clearing three missions whose middle one is completed keeps the first and the third, in order. |

## Left out

- Persistence writes are not modelled: the `useEffect` hooks that save the hero and the missions after every change, and their error logging. They never change the session's state. Reads are parameters of `Load`, and the reset's removal is a parameter of `ResetGame`.
- Asynchrony is not modelled: `async`/`await`, `Promise.all`, React's scheduling of `setHero(prev => ...)`, and re-renders. Each operation is one sequential transition on `(hero, missions)`.
- `Rpg.GainXp`, `Rpg.LevelUp`: both require `Settles`: the threshold is at least 1, or the experience is already below it. With a threshold of 0 or below, the source's loop never ends once the experience reaches the threshold. When the experience is below such a threshold, the loop does not run and the hero is returned with the gain added, which the model covers. `NormalizeHero` passes a saved threshold through unchecked, so `Session.Session.CompleteMission` requires `Settles` only when the mission actually grants experience.
- Floating point is not modelled:
  - Multiplying by `1.2` and `0.02` is exact rational arithmetic here.
  - Rounding is `floor(y + 1/2)`. A bonus product that lands on a tie (for example 25·51/50 = 25.5) is taken as an exact tie. IEEE-754 could put the product a hair away from it.
  - `XpProgress` uses exact real division.
  - Non-integer saved numbers are outside the model.
- The saved hero record is only partly modelled:
  - A non-numeric saved `level`, `currentXp` or `xpToNextLevel` is outside the model. The source copies it into the hero untyped.
  - Extra unknown fields, which the object spread carries along, are dropped.
- Saved missions are taken as parsed mission records. A saved tier tag outside the three tiers is kept as `Other(tag)`. Other malformed mission fields are outside the model.
- Identifiers from `Date.now()` are a parameter. Their uniqueness, and the effect of two missions sharing an id, are assumed rather than enforced: completion marks every mission with that id, and computes the bonus from the first one.
- Presentation is left out: screens, components, alerts (including the level-up alert), the progress bar's percentage rounding and the loading indicator.
