/** The game session: the current hero and mission list, the operations the
    screen invokes on them, and the restoration of a saved game.

    Writes to the key-value store are not modelled (they never feed back into
    the session); a read from it is a `StoreRead` parameter, and whether the
    store removal of a reset succeeded is a boolean parameter. */
module Session {
  import opened Rpg
  import opened Text

  datatype Option<T> = None | Some(value: T)

  /** A field of a saved hero that is sanitised on load: missing, a number,
      the number NaN, or a value of another type (string, null, ...). */
  datatype StoredNumber = Absent | Number(n: int) | NaN | NotNumber

  /** A saved hero after parsing. The three progression fields are either
      missing or a number; the four attribute fields may hold anything. */
  datatype StoredHero = StoredHero(
    level: Option<int>,
    currentXp: Option<int>,
    xpToNextLevel: Option<int>,
    strength: StoredNumber,
    intelligence: StoredNumber,
    vitality: StoredNumber,
    unspentPoints: StoredNumber)

  /** The outcome of reading one key: nothing saved, text that does not
      parse, the parsed value, or a read the store rejected. */
  datatype StoreRead<T> = Missing | Unparsable | Parsed(value: T) | ReadFailed

  /** A saved object with no fields at all (also what `null` amounts to). */
  const EmptyStoredHero := StoredHero(None, None, None, Absent, Absent, Absent, Absent)

  /** The saved form of a hero. */
  function Stored(h: Hero): StoredHero {
    StoredHero(Some(h.level), Some(h.currentXp), Some(h.xpToNextLevel),
               Number(h.strength), Number(h.intelligence), Number(h.vitality),
               Number(h.unspentPoints))
  }

  /** Object spread of one field over a default: a present field wins. */
  function Merge(field: Option<int>, default: int): int {
    match field
    case Some(v) => v
    case None => default
  }

  /** `fixNumber`: a number that is not NaN is kept, anything else falls back. */
  function FixNumber(value: StoredNumber, fallback: int): (r: int)
    ensures value.Number? ==> r == value.n
    ensures !value.Number? ==> r == fallback
  {
    if value.Number? then value.n else fallback
  }

  /** The hero a saved record restores to, field by field. */
  function NormalizedHero(stored: StoredHero): (h: Hero)
    ensures stored.level.Some? ==> h.level == stored.level.value
    ensures stored.currentXp.Some? ==> h.currentXp == stored.currentXp.value
    ensures stored.xpToNextLevel.Some? ==> h.xpToNextLevel == stored.xpToNextLevel.value
    ensures stored.level.None? ==> h.level == InitialHero.level
    ensures stored.currentXp.None? ==> h.currentXp == InitialHero.currentXp
    ensures stored.xpToNextLevel.None? ==> h.xpToNextLevel == InitialHero.xpToNextLevel
    ensures stored.strength.Number? ==> h.strength == stored.strength.n
    ensures stored.intelligence.Number? ==> h.intelligence == stored.intelligence.n
    ensures stored.vitality.Number? ==> h.vitality == stored.vitality.n
    ensures stored.unspentPoints.Number? ==> h.unspentPoints == stored.unspentPoints.n
    ensures !stored.strength.Number? ==> h.strength == InitialHero.strength
    ensures !stored.intelligence.Number? ==> h.intelligence == InitialHero.intelligence
    ensures !stored.vitality.Number? ==> h.vitality == InitialHero.vitality
    ensures !stored.unspentPoints.Number? ==> h.unspentPoints == InitialHero.unspentPoints
  {
    Hero(Merge(stored.level, InitialHero.level),
         Merge(stored.currentXp, InitialHero.currentXp),
         Merge(stored.xpToNextLevel, InitialHero.xpToNextLevel),
         FixNumber(stored.strength, InitialHero.strength),
         FixNumber(stored.intelligence, InitialHero.intelligence),
         FixNumber(stored.vitality, InitialHero.vitality),
         FixNumber(stored.unspentPoints, InitialHero.unspentPoints))
  }

  /** `normalizeHero`: spread the saved record over the initial hero, then
      overwrite the four attribute fields with their sanitised values. */
  method NormalizeHero(stored: StoredHero) returns (merged: Hero)
    ensures merged == NormalizedHero(stored)
    ensures forall h :: stored == Stored(h) ==> merged == h
  {
    merged := InitialHero.(level := Merge(stored.level, InitialHero.level),
                           currentXp := Merge(stored.currentXp, InitialHero.currentXp),
                           xpToNextLevel := Merge(stored.xpToNextLevel, InitialHero.xpToNextLevel));
    merged := merged.(strength := FixNumber(stored.strength, InitialHero.strength));
    merged := merged.(intelligence := FixNumber(stored.intelligence, InitialHero.intelligence));
    merged := merged.(vitality := FixNumber(stored.vitality, InitialHero.vitality));
    merged := merged.(unspentPoints := FixNumber(stored.unspentPoints, InitialHero.unspentPoints));
  }

  /** A saved hero restores to itself, and restoring is idempotent. */
  lemma NormalizeRoundTrip(h: Hero, stored: StoredHero)
    ensures NormalizedHero(Stored(h)) == h
    ensures NormalizedHero(Stored(NormalizedHero(stored))) == NormalizedHero(stored)
  {
  }

  /** A record with nothing in it restores to the initial hero. */
  lemma NormalizeEmpty()
    ensures NormalizedHero(EmptyStoredHero) == InitialHero
  {
  }

  // ---------------------------------------------------------------------
  // Mission list updates

  /** `missions.find(m => m.id === id)`, as the index of the first match. */
  function FindById(ms: seq<Mission>, id: string): (r: Option<nat>)
    ensures r.None? ==> forall i :: 0 <= i < |ms| ==> ms[i].id != id
    ensures r.Some? ==> r.value < |ms| && ms[r.value].id == id &&
                        forall i :: 0 <= i < r.value ==> ms[i].id != id
    decreases |ms|
  {
    if ms == [] then None
    else if ms[0].id == id then Some(0)
    else match FindById(ms[1..], id)
      case None => None
      case Some(j) => Some(j + 1)
  }

  /** Every mission with identifier `id` marked completed; nothing else moves. */
  function MarkCompleted(ms: seq<Mission>, id: string): (r: seq<Mission>)
    ensures |r| == |ms|
    ensures forall i :: 0 <= i < |ms| ==>
              r[i] == if ms[i].id == id then ms[i].(completed := true) else ms[i]
    decreases |ms|
  {
    if ms == [] then []
    else [if ms[0].id == id then ms[0].(completed := true) else ms[0]] + MarkCompleted(ms[1..], id)
  }

  /** `missions.filter(m => !m.completed)`. */
  function WithoutCompleted(ms: seq<Mission>): (r: seq<Mission>)
    ensures |r| <= |ms|
    ensures forall m :: m in r <==> m in ms && !m.completed
    decreases |ms|
  {
    if ms == [] then []
    else if ms[0].completed then WithoutCompleted(ms[1..])
    else [ms[0]] + WithoutCompleted(ms[1..])
  }

  /** Filtering distributes over concatenation, so the remaining missions keep
      their relative order. */
  lemma {:induction false} WithoutCompletedAppend(a: seq<Mission>, b: seq<Mission>)
    ensures WithoutCompleted(a + b) == WithoutCompleted(a) + WithoutCompleted(b)
    decreases |a|
  {
    if a != [] {
      assert (a + b)[0] == a[0];
      assert (a + b)[1..] == a[1..] + b;
      WithoutCompletedAppend(a[1..], b);
      if !a[0].completed {
        assert WithoutCompleted(a + b) == [a[0]] + (WithoutCompleted(a[1..]) + WithoutCompleted(b));
      }
    } else {
      assert a + b == b;
    }
  }

  /** Clearing twice is clearing once. */
  lemma {:induction false} WithoutCompletedIdempotent(ms: seq<Mission>)
    ensures WithoutCompleted(WithoutCompleted(ms)) == WithoutCompleted(ms)
    decreases |ms|
  {
    if ms != [] {
      WithoutCompletedIdempotent(ms[1..]);
      if !ms[0].completed {
        assert ([ms[0]] + WithoutCompleted(ms[1..]))[1..] == WithoutCompleted(ms[1..]);
      }
    }
  }

  /** The number of completed missions in `ms`. */
  function CountCompleted(ms: seq<Mission>): nat
    decreases |ms|
  {
    if ms == [] then 0 else (if ms[0].completed then 1 else 0) + CountCompleted(ms[1..])
  }

  /** Clearing drops exactly the completed missions: the list loses as many
      entries as it had completed missions, and none is left. */
  lemma {:induction false} WithoutCompletedCount(ms: seq<Mission>)
    ensures |WithoutCompleted(ms)| == |ms| - CountCompleted(ms)
    ensures CountCompleted(WithoutCompleted(ms)) == 0
    decreases |ms|
  {
    if ms != [] {
      WithoutCompletedCount(ms[1..]);
      if !ms[0].completed {
        var r := [ms[0]] + WithoutCompleted(ms[1..]);
        assert r[0] == ms[0] && r[1..] == WithoutCompleted(ms[1..]);
      }
    }
  }

  // ---------------------------------------------------------------------
  // Mission completion as a transition on (hero, missions)

  /** Whether completing `id` grants experience: the first mission with that
      identifier exists and is not completed yet. */
  predicate GrantsXp(ms: seq<Mission>, id: string) {
    var found := FindById(ms, id);
    found.Some? && !ms[found.value].completed
  }

  /** Completing `id` cannot hang: either it grants no experience, or the
      level-up loop of the gain ends. */
  predicate CompletionSettles(hero: Hero, ms: seq<Mission>, id: string) {
    var found := FindById(ms, id);
    found.Some? && !ms[found.value].completed ==>
      Settles(hero.currentXp + MissionXpWithBonus(hero, ms[found.value]), hero.xpToNextLevel)
  }

  /** `completeMission(id)`: nothing happens for an unknown identifier or a
      mission already completed; otherwise the bonus is computed from the hero
      before the gain, the hero gains it and the mission is marked completed. */
  function Completed(hero: Hero, ms: seq<Mission>, id: string): (Hero, seq<Mission>)
    requires CompletionSettles(hero, ms, id)
  {
    match FindById(ms, id)
    case None => (hero, ms)
    case Some(i) =>
      if ms[i].completed then (hero, ms)
      else (AfterGain(hero, MissionXpWithBonus(hero, ms[i])), MarkCompleted(ms, id))
  }

  /** Completing the same mission twice changes the state only once. */
  lemma CompleteTwiceIsOnce(hero: Hero, ms: seq<Mission>, id: string)
    requires CompletionSettles(hero, ms, id)
    ensures !GrantsXp(Completed(hero, ms, id).1, id)
    ensures Completed(Completed(hero, ms, id).0, Completed(hero, ms, id).1, id) == Completed(hero, ms, id)
  {
  }

  /** A completion keeps a valid hero valid and every mission's reward tied
      to its tier. */
  lemma CompletePreservesConsistency(hero: Hero, ms: seq<Mission>, id: string)
    requires HeroInvariant(hero)
    requires forall i :: 0 <= i < |ms| ==> RewardMatchesDifficulty(ms[i])
    ensures HeroInvariant(Completed(hero, ms, id).0)
    ensures forall i :: 0 <= i < |Completed(hero, ms, id).1| ==>
              RewardMatchesDifficulty(Completed(hero, ms, id).1[i])
  {
  }

  // ---------------------------------------------------------------------
  // The session

  class Session {
    var hero: Hero
    var missions: seq<Mission>
    var loading: bool

    /** A valid hero and missions whose rewards match their tiers. A saved
        game may break this; every other transition keeps it. */
    ghost predicate Consistent()
      reads this
    {
      HeroInvariant(hero) &&
      forall i :: 0 <= i < |missions| ==> RewardMatchesDifficulty(missions[i])
    }

    /** The state before the saved game is read. */
    constructor ()
      ensures hero == InitialHero && missions == [] && loading
      ensures Consistent()
    {
      hero := InitialHero;
      missions := [];
      loading := true;
    }

    /** `loadState`: a saved hero is normalised, a missing one leaves the hero
        as it is; a missing mission list becomes the default missions. A read
        the store rejects fails both reads before anything is set; text that
        does not parse raises, which skips the rest of the load. */
    method Load(heroRead: StoreRead<StoredHero>, missionsRead: StoreRead<seq<Mission>>)
      modifies this
      ensures !loading
      ensures heroRead.ReadFailed? || missionsRead.ReadFailed? ==>
                hero == old(hero) && missions == old(missions)
      ensures !missionsRead.ReadFailed? && heroRead.Parsed? ==> hero == NormalizedHero(heroRead.value)
      ensures !heroRead.Parsed? ==> hero == old(hero)
      ensures heroRead.Unparsable? || missionsRead.Unparsable? ==> missions == old(missions)
      ensures !heroRead.Unparsable? && !heroRead.ReadFailed? && missionsRead.Missing? ==>
                missions == DefaultMissions
      ensures !heroRead.Unparsable? && !heroRead.ReadFailed? && missionsRead.Parsed? ==>
                missions == missionsRead.value
    {
      if heroRead.ReadFailed? || missionsRead.ReadFailed? || heroRead.Unparsable? {
        loading := false;
        return;
      }
      if heroRead.Parsed? {
        var normalized := NormalizeHero(heroRead.value);
        hero := normalized;
      }
      match missionsRead {
        case Missing => missions := DefaultMissions;
        case Unparsable =>
        case Parsed(saved) => missions := saved;
        case ReadFailed =>
      }
      loading := false;
    }

    method CompleteMission(id: string)
      requires CompletionSettles(hero, missions, id)
      modifies this
      ensures (hero, missions) == Completed(old(hero), old(missions), id)
      ensures loading == old(loading)
      ensures old(Consistent()) ==> Consistent()
    {
      if Consistent() {
        CompletePreservesConsistency(hero, missions, id);
      }
      var found := FindById(missions, id);
      if found.None? || missions[found.value].completed {
        return;
      }
      var mission := missions[found.value];
      var xpWithBonus := MissionXpWithBonus(hero, mission);
      hero := GainXp(hero, xpWithBonus);
      missions := MarkCompleted(missions, id);
    }

    /** `addMission`: append a new mission, whatever its title. */
    method AddMission(id: string, title: string, difficulty: Difficulty)
      modifies this
      ensures missions == old(missions) + [CreateMission(id, title, difficulty)]
      ensures hero == old(hero) && loading == old(loading)
      ensures old(Consistent()) ==> Consistent()
    {
      var newMission := CreateMission(id, title, difficulty);
      missions := missions + [newMission];
    }

    /** The form's submit handler: a title that is empty after trimming is
        ignored, any other is added trimmed. */
    method SubmitMission(id: string, rawTitle: string, difficulty: Difficulty)
      modifies this
      ensures Trim(rawTitle) == [] ==> missions == old(missions)
      ensures Trim(rawTitle) != [] ==>
                missions == old(missions) + [CreateMission(id, Trim(rawTitle), difficulty)]
      ensures hero == old(hero) && loading == old(loading)
      ensures old(Consistent()) ==> Consistent()
    {
      var title := Trim(rawTitle);
      if title == [] {
        return;
      }
      AddMission(id, title, difficulty);
    }

    /** `clearCompletedMissions`. */
    method ClearCompletedMissions()
      modifies this
      ensures missions == WithoutCompleted(old(missions))
      ensures hero == old(hero) && loading == old(loading)
      ensures old(Consistent()) ==> Consistent()
    {
      missions := WithoutCompleted(missions);
      assert forall i :: 0 <= i < |missions| ==> missions[i] in old(missions);
    }

    /** `resetGame`: once the saved game is removed, start over; if the
        removal fails, nothing changes. */
    method ResetGame(removalSucceeded: bool)
      modifies this
      ensures removalSucceeded ==> hero == InitialHero && missions == DefaultMissions
      ensures !removalSucceeded ==> hero == old(hero) && missions == old(missions)
      ensures loading == old(loading)
      ensures removalSucceeded ==> Consistent()
    {
      if removalSucceeded {
        hero := InitialHero;
        missions := DefaultMissions;
      }
    }

    /** `allocateHeroPoint`. */
    method AllocateHeroPoint(attribute: Attribute)
      modifies this
      ensures hero == AllocatePoint(old(hero), attribute)
      ensures missions == old(missions) && loading == old(loading)
      ensures old(Consistent()) ==> Consistent()
    {
      hero := AllocatePoint(hero, attribute);
    }
  }

  /** A first start with nothing saved: the initial hero and the default
      missions. */
  method FirstStart() returns (s: Session)
    ensures fresh(s) && !s.loading
    ensures s.hero == InitialHero && s.missions == DefaultMissions
    ensures s.Consistent()
  {
    s := new Session();
    s.Load(Missing, Missing);
  }

  /** Three missions with the middle one completed: clearing keeps the outer
      two in order. */
  lemma ClearKeepsOrder(a: Mission, b: Mission, c: Mission)
    requires !a.completed && b.completed && !c.completed
    ensures WithoutCompleted([a, b, c]) == [a, c]
  {
  }
}
