/**
 * The game as the app drives it: a session of levels, the level being
 * played, the device pair limit fixed when the game is created, and the
 * deck dealt for the active level. Advancing, restarting the journey and
 * replaying a level keep the active level in step with the session and deal
 * a fresh deck.
 *
 * The round's own card type and `MemoryGame(cards:)` are not part of this
 * model, so a deck is a sequence of `DeckCard` records. Both shuffles are
 * arbitrary permutations, chosen with `:|` and pinned down only by multiset
 * equality.
 */
module EmojiMemoryGame {
  import opened Options
  import opened ThemeLibrary
  import opened LevelSystem
  import opened CardDensityAdvisor

  /** A card of a dealt deck. */
  datatype DeckCard = DeckCard(content: string, bonusTimeLimit: real, isFaceUp: bool, isMatched: bool)

  /** A card as the deck builder creates it: face-down and unmatched. */
  function NewCard(content: string, bonusTimeLimit: real): DeckCard {
    DeckCard(content, bonusTimeLimit, false, false)
  }

  /** Two new cards for each token, in token order: the deck before its shuffle. */
  function Pairs(tokens: seq<string>, bonusTimeLimit: real): (cards: seq<DeckCard>)
    ensures |cards| == 2 * |tokens|
    ensures forall k :: 0 <= k < |cards| ==> cards[k] == NewCard(tokens[k / 2], bonusTimeLimit)
  {
    if tokens == [] then []
    else [NewCard(tokens[0], bonusTimeLimit), NewCard(tokens[0], bonusTimeLimit)] + Pairs(tokens[1..], bonusTimeLimit)
  }

  /** Each token gives exactly two cards: a card occurs twice as often in the pairs as its token among the tokens. */
  lemma {:induction false} PairsCount(tokens: seq<string>, bonusTimeLimit: real, t: string)
    ensures multiset(Pairs(tokens, bonusTimeLimit))[NewCard(t, bonusTimeLimit)] == 2 * multiset(tokens)[t]
  {
    if tokens != [] {
      PairsCount(tokens[1..], bonusTimeLimit, t);
      assert tokens == [tokens[0]] + tokens[1..];
      var card := NewCard(tokens[0], bonusTimeLimit);
      assert Pairs(tokens, bonusTimeLimit) == [card, card] + Pairs(tokens[1..], bonusTimeLimit);
      assert multiset(Pairs(tokens, bonusTimeLimit)) == multiset{card, card} + multiset(Pairs(tokens[1..], bonusTimeLimit));
    }
  }

  /**
   * `cards` is a deck dealt from `content` with `pairCount` pairs: the tokens
   * `usable` are `pairCount` tokens drawn from distinct positions of
   * `content`, and the deck holds two new cards per token, carrying
   * `bonusTimeLimit`, in any order.
   */
  ghost predicate DealtFrom(cards: seq<DeckCard>, content: seq<string>, pairCount: int, bonusTimeLimit: real, usable: seq<string>) {
    && |usable| == pairCount
    && multiset(usable) <= multiset(content)
    && multiset(cards) == multiset(Pairs(usable, bonusTimeLimit))
  }

  /** `cards` is a deck dealt for `level` under device limit `limit`. */
  ghost predicate Dealt(cards: seq<DeckCard>, level: LevelConfig, limit: int) {
    exists usable :: DealtFrom(cards, ThemeFor(level.themeID).content, PairCount(level, limit), level.bonusTimeLimit, usable)
  }

  /** A deck dealt from `usable` has two cards per token, each one new, carrying the bonus time and holding one of the tokens. */
  lemma DealtDeckCards(cards: seq<DeckCard>, content: seq<string>, pairCount: int, bonusTimeLimit: real, usable: seq<string>)
    requires DealtFrom(cards, content, pairCount, bonusTimeLimit, usable)
    ensures |cards| == 2 * pairCount
    ensures forall c :: c in cards ==> c == NewCard(c.content, bonusTimeLimit) && c.content in usable
  {
    var pairs := Pairs(usable, bonusTimeLimit);
    assert |cards| == |multiset(cards)| == |multiset(pairs)| == |pairs|;
    forall c | c in cards
      ensures c == NewCard(c.content, bonusTimeLimit) && c.content in usable
    {
      assert c in multiset(pairs);
      var k :| 0 <= k < |pairs| && pairs[k] == c;
      assert usable[k / 2] in usable;
    }
  }

  /**
   * When `content` repeats no token, a deck dealt from it holds each chosen
   * token on exactly two cards and no other token on any card.
   */
  lemma DealtDeckTokenCounts(cards: seq<DeckCard>, content: seq<string>, pairCount: int, bonusTimeLimit: real, usable: seq<string>)
    requires DealtFrom(cards, content, pairCount, bonusTimeLimit, usable)
    requires NoDuplicates(content)
    ensures forall t :: t in usable ==> multiset(cards)[NewCard(t, bonusTimeLimit)] == 2
    ensures forall t :: t !in usable ==> multiset(cards)[NewCard(t, bonusTimeLimit)] == 0
  {
    forall t | t in usable
      ensures multiset(cards)[NewCard(t, bonusTimeLimit)] == 2
    {
      PairsCount(usable, bonusTimeLimit, t);
      NoDuplicatesOccurAtMostOnce(content, t);
    }
    forall t | t !in usable
      ensures multiset(cards)[NewCard(t, bonusTimeLimit)] == 0
    {
      PairsCount(usable, bonusTimeLimit, t);
    }
  }

  /** A deck dealt for a level has two cards per allowed pair, at least two cards, and none of them matched. */
  lemma DealtDeckSize(cards: seq<DeckCard>, level: LevelConfig, limit: int)
    requires Dealt(cards, level, limit)
    ensures |cards| == 2 * PairCount(level, limit)
    ensures cards != [] && forall c :: c in cards ==> !c.isMatched
  {
    var content, pairCount := ThemeFor(level.themeID).content, PairCount(level, limit);
    var usable :| DealtFrom(cards, content, pairCount, level.bonusTimeLimit, usable);
    DealtDeckCards(cards, content, pairCount, level.bonusTimeLimit, usable);
  }

  /** The view model of the game. */
  class EmojiMemoryGame {
    /**
     * The deck of the round being played. The round's own type is not part
     * of this model, so the round is represented by its deck alone.
     */
    var game: seq<DeckCard>
    const sessionManager: GameSessionManager
    const devicePairLimit: int
    var activeLevel: LevelConfig

    /**
     * The active level is the session's current level and the deck has that
     * level's size. This holds throughout play, finished rounds included:
     * choosing cards changes faces and matches but never the deck's size.
     */
    ghost predicate InStep()
      reads this, sessionManager
    {
      && sessionManager.Valid()
      && activeLevel == sessionManager.CurrentLevel()
      && |game| == 2 * PairCount(activeLevel, devicePairLimit)
    }

    /** In step, with a deck freshly dealt for the active level. */
    ghost predicate Valid()
      reads this, sessionManager
    {
      && InStep()
      && Dealt(game, activeLevel, devicePairLimit)
    }

    /**
     * A game on the session's current level. The device limit is the one
     * supplied, or else the device's own, and stays fixed for the game's life.
     */
    constructor (sessionManager: GameSessionManager, devicePairLimit: Option<int>, device: Device)
      requires sessionManager.Valid()
      ensures Valid()
      ensures this.sessionManager == sessionManager
      ensures this.devicePairLimit == ResolvedLimit(devicePairLimit, device)
      ensures !IsGameOver()
    {
      var limit := devicePairLimit.GetOr(DevicePairLimit(device));
      var cards: seq<DeckCard>;
      ghost var usable: seq<string>;
      cards, usable := BuildDeck(sessionManager.CurrentLevel(), limit);
      this.sessionManager := sessionManager;
      activeLevel := sessionManager.CurrentLevel();
      this.devicePairLimit := limit;
      game := cards;
      new;
      DealtDeckSize(game, activeLevel, limit);
    }

    /** The number of the level being played: in step, the session's current level's number. */
    function LevelNumber(): (n: int)
      reads this, sessionManager
      ensures InStep() ==> n == sessionManager.levels[sessionManager.currentLevelIndex].levelNumber
    {
      activeLevel.levelNumber
    }

    /**
     * The round is over when every card of the deck is matched; a freshly
     * dealt deck is never over.
     */
    predicate IsGameOver(): (over: bool)
      reads this
      ensures Dealt(game, activeLevel, devicePairLimit) ==> !over
    {
      DealtDeckIsNotOver(game, activeLevel, devicePairLimit);
      forall c :: c in game ==> c.isMatched
    }

    /**
     * Deals a deck for `level`: the theme's content shuffled, its first
     * `PairCount` tokens, two new cards per token carrying the level's bonus
     * time, and the whole deck shuffled. The ghost result `usable` is the
     * chosen tokens.
     */
    static method BuildDeck(level: LevelConfig, devicePairLimit: int) returns (cards: seq<DeckCard>, ghost usable: seq<string>)
      ensures DealtFrom(cards, ThemeFor(level.themeID).content, PairCount(level, devicePairLimit), level.bonusTimeLimit, usable)
      ensures |cards| == 2 * PairCount(level, devicePairLimit)
      ensures forall c :: c in cards ==> c.bonusTimeLimit == level.bonusTimeLimit && !c.isFaceUp && !c.isMatched
    {
      var content := ThemeFor(level.themeID).content;
      var actualPairCount := PairCount(level, devicePairLimit);
      PairCountFitsTheme(level, devicePairLimit);
      cards, usable := DealPairs(content, actualPairCount, level.bonusTimeLimit);
      DealtDeckCards(cards, content, actualPairCount, level.bonusTimeLimit, usable);
    }

    /**
     * The dealing step of `BuildDeck`: shuffle `content`, keep its first
     * `pairCount` tokens (all of them when there are fewer), make two new
     * cards per token and shuffle the deck.
     */
    static method DealPairs(content: seq<string>, pairCount: int, bonusTimeLimit: real) returns (cards: seq<DeckCard>, ghost usable: seq<string>)
      requires 0 <= pairCount
      ensures |usable| == Min(pairCount, |content|)
      ensures multiset(usable) <= multiset(content)
      ensures multiset(cards) == multiset(Pairs(usable, bonusTimeLimit))
      ensures |cards| == 2 * Min(pairCount, |content|)
      ensures forall c :: c in cards ==> c == NewCard(c.content, bonusTimeLimit) && c.content in content
    {
      var shuffledContent :| multiset(shuffledContent) == multiset(content);
      assert |shuffledContent| == |multiset(content)| == |content|;
      var usableContent := shuffledContent[..Min(pairCount, |shuffledContent|)];
      var built := PairUp(usableContent, bonusTimeLimit);
      cards :| multiset(cards) == multiset(built);
      usable := usableContent;
      PrefixIsSubMultiset(shuffledContent, |usableContent|);
      DealtDeckCards(cards, content, |usable|, bonusTimeLimit, usable);
      forall c | c in cards
        ensures c.content in content
      {
        assert c.content in multiset(usable);
      }
    }

    /** A prefix of a sequence holds no element more often than the sequence. */
    static lemma PrefixIsSubMultiset<E>(s: seq<E>, n: nat)
      requires n <= |s|
      ensures multiset(s[..n]) <= multiset(s)
    {
      assert s == s[..n] + s[n..];
    }

    /** Makes two new cards, carrying `bonusTimeLimit`, for each token in order. */
    static method PairUp(tokens: seq<string>, bonusTimeLimit: real) returns (built: seq<DeckCard>)
      ensures built == Pairs(tokens, bonusTimeLimit)
    {
      built := [];
      for i := 0 to |tokens|
        invariant |built| == 2 * i
        invariant forall k :: 0 <= k < 2 * i ==> built[k] == NewCard(tokens[k / 2], bonusTimeLimit)
      {
        var symbol := tokens[i];
        var firstCard := NewCard(symbol, bonusTimeLimit);
        var secondCard := NewCard(symbol, bonusTimeLimit);
        built := built + [firstCard, secondCard];
      }
    }

    /** Deals a fresh deck for the active level under the stored device limit. */
    method ReloadActiveLevel()
      requires sessionManager.Valid() && activeLevel == sessionManager.CurrentLevel()
      modifies this`game
      ensures Valid()
      ensures !IsGameOver()
    {
      var cards: seq<DeckCard>;
      ghost var usable: seq<string>;
      cards, usable := BuildDeck(activeLevel, devicePairLimit);
      game := cards;
      DealtDeckSize(game, activeLevel, devicePairLimit);
    }

    /** Replays the active level with a fresh deck of the same size. */
    method RestartLevel()
      requires InStep()
      modifies this`game
      ensures Valid()
      ensures |game| == old(|game|)
      ensures !IsGameOver()
    {
      ReloadActiveLevel();
    }

    /** Restarts the session and deals a fresh deck for its first level. */
    method RestartJourney()
      requires sessionManager.Valid()
      modifies this, sessionManager
      ensures Valid()
      ensures sessionManager.currentLevelIndex == 0 && sessionManager.earnedStars == 0
      ensures activeLevel == sessionManager.levels[0]
      ensures !IsGameOver()
    {
      sessionManager.RestartJourney();
      activeLevel := sessionManager.CurrentLevel();
      ReloadActiveLevel();
    }

    /**
     * Rates the round by its `mismatchCount` and advances the session. When
     * the session moves, the active level follows it and a fresh deck is
     * dealt; otherwise the level and the deck stay as they are.
     */
    method AdvanceLevel(mismatchCount: int) returns (moved: bool)
      requires InStep()
      modifies this, sessionManager
      ensures InStep()
      ensures moved ==> Valid()
      ensures sessionManager.earnedStars == old(sessionManager.earnedStars) + GameSessionManager.StarRating(LevelStats(mismatchCount))
      ensures moved <==> !old(sessionManager.IsOnFinalLevel())
      ensures sessionManager.currentLevelIndex == old(sessionManager.currentLevelIndex) + if moved then 1 else 0
      ensures !moved ==> activeLevel == old(activeLevel) && game == old(game)
      ensures moved ==> !IsGameOver()
    {
      var stats := LevelStats(mismatchCount);
      moved := sessionManager.Advance(stats);
      if moved {
        activeLevel := sessionManager.CurrentLevel();
        ReloadActiveLevel();
      }
    }
  }

  /** A freshly dealt deck is never a finished round. */
  lemma DealtDeckIsNotOver(cards: seq<DeckCard>, level: LevelConfig, limit: int)
    ensures Dealt(cards, level, limit) ==> !(forall c :: c in cards ==> c.isMatched)
  {
    if Dealt(cards, level, limit) {
      DealtDeckSize(cards, level, limit);
      assert cards[0] in cards;
    }
  }

  // ---------------------------------------------------------------------
  // The unit tests' scenarios

  /** The two-level campaign of the deck-size tests; their pair counts (2 and 3) are never read. */
  function MiniCampaign(): seq<LevelConfig> {
    [
      LevelConfig(1, FriendlyCars, 2, 8.0, "Mini Cars"),
      LevelConfig(2, RainbowNumbers, 3, 7.0, "Mini Numbers")
    ]
  }

  /**
   * On the default campaign, advancing moves to the next level number and
   * restarting the journey goes back to level 1.
   */
  method LevelProgressionAndRestartTrace(device: Device, mismatchCount: int)
    returns (originalLevel: int, moved: bool, advancedLevel: int, restartedLevel: int)
    ensures moved && advancedLevel == originalLevel + 1
    ensures restartedLevel == 1
  {
    var session := new GameSessionManager(DefaultCampaign());
    var viewModel := new EmojiMemoryGame(session, None, device);
    originalLevel := viewModel.LevelNumber();
    moved := viewModel.AdvanceLevel(mismatchCount);
    advancedLevel := viewModel.LevelNumber();
    viewModel.RestartJourney();
    restartedLevel := viewModel.LevelNumber();
  }

  /**
   * With a device limit of 3 both levels of the two-level campaign get six
   * cards, whatever pair counts the levels themselves carry.
   */
  method DeckSizesFollowLimitTrace(device: Device, mismatchCount: int)
    returns (firstCount: int, moved: bool, secondCount: int)
    ensures firstCount == 6 && moved && secondCount == 6
  {
    ThemeContentSizes();
    var session := new GameSessionManager(MiniCampaign());
    var viewModel := new EmojiMemoryGame(session, Some(3), device);
    DealtDeckSize(viewModel.game, viewModel.activeLevel, viewModel.devicePairLimit);
    firstCount := |viewModel.game|;
    moved := viewModel.AdvanceLevel(mismatchCount);
    DealtDeckSize(viewModel.game, viewModel.activeLevel, viewModel.devicePairLimit);
    secondCount := |viewModel.game|;
  }

  /**
   * Replaying the level deals six cards again; after advancing, restarting
   * the journey returns to level 1 with a six-card deck.
   */
  method ReplayAndRestartJourneyTrace(device: Device, mismatchCount: int)
    returns (replayCount: int, moved: bool, restartedLevel: int, restartedCount: int)
    ensures replayCount == 6 && moved && restartedLevel == 1 && restartedCount == 6
  {
    ThemeContentSizes();
    var session := new GameSessionManager(MiniCampaign());
    var viewModel := new EmojiMemoryGame(session, Some(3), device);
    viewModel.RestartLevel();
    DealtDeckSize(viewModel.game, viewModel.activeLevel, viewModel.devicePairLimit);
    replayCount := |viewModel.game|;
    moved := viewModel.AdvanceLevel(mismatchCount);
    viewModel.RestartJourney();
    restartedLevel := viewModel.LevelNumber();
    DealtDeckSize(viewModel.game, viewModel.activeLevel, viewModel.devicePairLimit);
    restartedCount := |viewModel.game|;
  }

  /**
   * With the device override pinned to 4, the first two levels of the
   * default campaign each get eight cards: the limit read when the game is
   * created is kept for the next level.
   */
  method PinnedDeviceLimitTrace(platform: Platform, mismatchCount: int)
    returns (firstCount: int, moved: bool, secondCount: int)
    ensures firstCount == 8 && moved && secondCount == 8
  {
    var device := Device(Some(4), platform);
    var campaign := DefaultCampaign();
    assert ResolvedLimit(None, device) == 4;
    assert PairCount(campaign[0], 4) == 4 && PairCount(campaign[1], 4) == 4 by {
      ThemeContentSizes();
    }
    var session := new GameSessionManager(campaign);
    var viewModel := new EmojiMemoryGame(session, None, device);
    DealtDeckSize(viewModel.game, viewModel.activeLevel, viewModel.devicePairLimit);
    firstCount := |viewModel.game|;
    moved := viewModel.AdvanceLevel(mismatchCount);
    assert viewModel.activeLevel == campaign[1];
    DealtDeckSize(viewModel.game, viewModel.activeLevel, viewModel.devicePairLimit);
    secondCount := |viewModel.game|;
  }
}
