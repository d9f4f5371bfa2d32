/**
 * Level configurations, the default campaign and the session that walks
 * through it: the current level index, the stars banked so far, advancing
 * with a star rating and restarting the journey.
 */
module LevelSystem {
  import opened ThemeLibrary

  /**
   * One level of a campaign. The level's random UUID and its special rules
   * are stored by the game but never acted on, so they are not modelled.
   */
  datatype LevelConfig = LevelConfig(
    levelNumber: int,
    themeID: ThemeID,
    pairCount: int,
    bonusTimeLimit: real,
    title: string)

  /** The outcome of a played level that the session rates. */
  datatype LevelStats = LevelStats(mismatches: int)

  /** The five levels every journey plays through, in order. */
  function DefaultCampaign(): (levels: seq<LevelConfig>)
    ensures |levels| == 5
    ensures forall i :: 0 <= i < |levels| ==> levels[i].levelNumber == i + 1
  {
    [
      LevelConfig(1, FriendlyCars, 4, 8.0, "Friendly Cars"),
      LevelConfig(2, RainbowNumbers, 5, 7.0, "Rainbow Numbers"),
      LevelConfig(3, LetterLab, 6, 6.0, "Letter Lab"),
      LevelConfig(4, TinyWords, 7, 6.0, "Tiny Words"),
      LevelConfig(5, AdventureMix, 8, 5.0, "Adventure Mix")
    ]
  }

  /** The progress record of one play-through of a campaign. */
  class GameSessionManager {
    var currentLevelIndex: int
    var earnedStars: int
    const levels: seq<LevelConfig>

    /** The index points into the campaign, so the current level can be read. */
    ghost predicate Valid()
      reads this
    {
      0 <= currentLevelIndex < |levels|
    }

    /** A new session starts on the first level with no stars. */
    constructor (levels: seq<LevelConfig>)
      ensures this.levels == levels
      ensures currentLevelIndex == 0 && earnedStars == 0
      ensures |levels| > 0 ==> Valid()
    {
      this.levels := levels;
      currentLevelIndex := 0;
      earnedStars := 0;
    }

    /** The level the session is on. */
    function CurrentLevel(): (level: LevelConfig)
      reads this
      requires Valid()
      ensures level in levels
      ensures level == levels[currentLevelIndex]
    {
      levels[currentLevelIndex]
    }

    /** The number of levels in the campaign. */
    function TotalLevels(): (n: nat)
      ensures n == |levels|
    {
      |levels|
    }

    /** The session is on the last level of the campaign, or beyond it. */
    predicate IsOnFinalLevel(): (final: bool)
      reads this
      ensures Valid() ==> (final <==> currentLevelIndex == |levels| - 1)
      ensures |levels| <= currentLevelIndex + 1 ==> final
    {
      currentLevelIndex >= |levels| - 1
    }

    /** Back to the first level with no stars. */
    method RestartJourney()
      modifies this
      ensures currentLevelIndex == 0 && earnedStars == 0
      ensures |levels| > 0 ==> Valid()
    {
      currentLevelIndex := 0;
      earnedStars := 0;
    }

    /**
     * Banks the stars for `stats` and moves on to the next level, unless the
     * session is already on the final one. Reports whether it moved.
     */
    method Advance(stats: LevelStats) returns (moved: bool)
      modifies this
      ensures earnedStars == old(earnedStars) + StarRating(stats)
      ensures moved <==> !old(IsOnFinalLevel())
      ensures currentLevelIndex == if moved then old(currentLevelIndex) + 1 else old(currentLevelIndex)
      ensures old(Valid()) ==> Valid()
    {
      earnedStars := earnedStars + StarRating(stats);
      if IsOnFinalLevel() {
        return false;
      }
      currentLevelIndex := currentLevelIndex + 1;
      return true;
    }

    /** Three stars for at most one mismatch, two for two or three, one otherwise. */
    static function StarRating(stats: LevelStats): (stars: int)
      ensures 1 <= stars <= 3
      ensures stars == 3 <==> stats.mismatches <= 1
      ensures stars == 1 <==> stats.mismatches >= 4
    {
      if stats.mismatches <= 1 then 3
      else if stats.mismatches <= 3 then 2
      else 1
    }
  }

  /** More mismatches never earn more stars. */
  lemma StarRatingMonotone(fewer: LevelStats, more: LevelStats)
    requires fewer.mismatches <= more.mismatches
    ensures GameSessionManager.StarRating(more) <= GameSessionManager.StarRating(fewer)
  {
  }

  /** On the default campaign the current level's number is one more than its index. */
  lemma DefaultCampaignLevelNumbers(session: GameSessionManager)
    requires session.levels == DefaultCampaign()
    requires session.Valid()
    ensures session.CurrentLevel().levelNumber == session.currentLevelIndex + 1
  {
  }

  /**
   * The session test: from a new default session, advancing with no
   * mismatches reaches level 2 with three stars, and advancing again with
   * three mismatches brings the total to five stars.
   */
  method AdvanceAndAwardStarsTrace() returns (firstLevel: int, movedOnce: bool, secondLevel: int, starsOnce: int, movedTwice: bool, starsTwice: int)
    ensures firstLevel == 1 && movedOnce && secondLevel == 2 && starsOnce == 3
    ensures movedTwice && starsTwice == 5
  {
    var session := new GameSessionManager(DefaultCampaign());
    firstLevel := session.CurrentLevel().levelNumber;
    movedOnce := session.Advance(LevelStats(0));
    secondLevel := session.CurrentLevel().levelNumber;
    starsOnce := session.earnedStars;
    movedTwice := session.Advance(LevelStats(3));
    starsTwice := session.earnedStars;
  }

  /**
   * Five advances with no mismatches through the default campaign: the first
   * four move, the fifth stays on the last level, and fifteen stars are banked.
   */
  method FullCampaignTrace() returns (moves: seq<bool>, finalIndex: int, stars: int)
    ensures moves == [true, true, true, true, false]
    ensures finalIndex == 4 && stars == 15
  {
    var session := new GameSessionManager(DefaultCampaign());
    var m1 := session.Advance(LevelStats(0));
    var m2 := session.Advance(LevelStats(0));
    var m3 := session.Advance(LevelStats(0));
    var m4 := session.Advance(LevelStats(0));
    var m5 := session.Advance(LevelStats(0));
    moves := [m1, m2, m3, m4, m5];
    finalIndex := session.currentLevelIndex;
    stars := session.earnedStars;
  }
}
