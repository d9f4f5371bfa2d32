# Memorize, modelled in Dafny

Memorize is a card-matching game for children. A round deals pairs of
face-down cards. The player turns cards up two at a time, and two cards
with equal content become matched. A session walks through a campaign of
levels and banks stars for each level by its number of mismatches. The
number of pairs dealt per level depends on how many cards the device can
show comfortably.

This project models the game's logic in five modules, one per Swift file:

- `MemoryGame` (memory_game.dfy) is the round. The class `MemoryGame`
  keeps the deck in a `seq` field. Its constructor deals the pairs in a
  loop. `SetIndexOfTheOnlyFaceUpCard` is the setter of
  `indexOfTheOnlyFaceUpCard`, a loop over the deck. `Choose` applies the
  reveal/match rule in place.
  - `Choose` is proved against the function `AfterChoose`.
  - Lemmas over `AfterChoose` state what a choice does in each case.
  - Lemmas over `ChooseAll` state what holds after any sequence of choices
    from a new deck.
- `LevelSystem` (level_system.dfy) holds the level records, the default
  campaign and the class `GameSessionManager` with its level index and star
  total.
- `CardDensityAdvisor` (card_density_advisor.dfy) holds the device pair
  limit and the pair count of a level. The device is a `Device` value: the
  test override, the platform, and on iOS the interface idiom and screen
  size.
- `EmojiMemoryGame` (emoji_memory_game.dfy) is the view model.
  - It deals the deck of the active level: a shuffled prefix of the theme's
    content, two cards per token, and a shuffle of the deck.
  - It keeps the active level in step with the session when advancing,
    replaying a level or restarting the journey.
  - Both shuffles are arbitrary permutations, fixed only up to multiset
    equality.
- `ThemeLibrary` (theme_library.dfy) is the theme table. It holds each theme's
  id and content tokens, and the lookup with its fallback.

`Options` (options.dfy) is the optional-value type that Swift writes `T?`.

Three points about the code that the model keeps as written:

- When `choose` looks for "the only face-up card", it counts every face-up
  card, matched ones included (Memorize/MemoryGame.swift:16). When that
  count is not exactly one, the setter turns every other card face-down,
  matched ones included (Memorize/MemoryGame.swift:18).
- The round's code in Memorize/MemoryGame.swift keeps no score and no
  mismatch count.
- Deck building raises no error for an empty theme: `max(1, …)` would ask
  for one pair and the prefix would give none. Every theme in the table is
  non-empty, so this cannot happen; `PairCountFitsTheme` proves the pair
  count always fits the theme.

## Model

| member | source | states |
|---|---|---|
| ThemeLibrary.ThemeFor | Memorize/ThemeLibrary.swift:94-96 | the table's entry for the id, or the friendly-cars entry when the table has none |
| ThemeLibrary.ThemeForReturnsOwnTheme | Memorize/ThemeLibrary.swift:26-92 | every theme id has an entry in the table, so the fallback is never taken and the theme returned carries the id asked for |
| ThemeLibrary.ThemeContentSizes | Memorize/ThemeLibrary.swift:40-85 | the themes hold 8, 10, 12, 8, 8 and 8 tokens, and every theme is non-empty |
| ThemeLibrary.ThemeContentDistinct | Memorize/ThemeLibrary.swift:40-85 | no theme's content repeats a token |
| ThemeLibrary.NoDuplicatesOccurAtMostOnce | Memorize/ThemeLibrary.swift:40-85 | a token list without repeats holds each token at most once, and exactly once when present |
| CardDensityAdvisor.LongestSide | Memorize/CardDensityAdvisor.swift:18 | the longest side is one of the two sides and at least as long as each |
| CardDensityAdvisor.PhonePairLimit | Memorize/CardDensityAdvisor.swift:19-28 | a longest side below 650 gives 5 pairs, below 780 gives 6, below 900 gives 7, and any longer side gives 8 |
| CardDensityAdvisor.PhonePairLimitMonotone | Memorize/CardDensityAdvisor.swift:19-28 | a longer screen never gets fewer pairs |
| CardDensityAdvisor.DevicePairLimit | Memorize/CardDensityAdvisor.swift:8-32 | a pinned override gives max(1, override); the result is always at least 1; without an override it is one of 5, 6, 7, 8, 10; an iPad gets 10, any other iOS device gets PhonePairLimit of its screen's longest side, and a non-iOS platform gets 8 |
| CardDensityAdvisor.ResolvedLimit | Memorize/CardDensityAdvisor.swift:35 | the supplied device limit when there is one, otherwise the device's own limit |
| CardDensityAdvisor.PairCount | Memorize/CardDensityAdvisor.swift:34-38 | at least one pair; never more than a limit of 1 or more; equal to the limit when it fits in the theme; equal to the theme's size when the limit reaches it; one pair when the limit or the theme is below one |
| CardDensityAdvisor.PairCountFitsTheme | Memorize/CardDensityAdvisor.swift:37 | for every level and limit the pair count lies between 1 and the theme's size |
| CardDensityAdvisor.PairCountIgnoresLevelPairCount | Memorize/CardDensityAdvisor.swift:34-38 | changing the level's own pairCount never changes the pair count dealt |
| LevelSystem.DefaultCampaign | Memorize/LevelSystem.swift:17-25 | the campaign has five levels numbered 1 to 5 in list order |
| LevelSystem.DefaultCampaignLevelNumbers | Memorize/LevelSystem.swift:41-43 | on the default campaign the current level's number is its index plus one |
| LevelSystem.GameSessionManager.constructor | Memorize/LevelSystem.swift:33-39 | a new session keeps the campaign, starts on index 0 with no stars, and has a readable current level when the campaign is non-empty |
| LevelSystem.GameSessionManager.CurrentLevel | Memorize/LevelSystem.swift:41-43 | the level at the current index, which is one of the campaign's levels |
| LevelSystem.GameSessionManager.TotalLevels | Memorize/LevelSystem.swift:50-52 | the number of levels in the campaign |
| LevelSystem.GameSessionManager.IsOnFinalLevel | Memorize/LevelSystem.swift:54-56 | on a session whose index is inside the campaign, the session is on its final level exactly when the index is the last one; an index at or beyond count − 1 always counts as final |
| LevelSystem.GameSessionManager.RestartJourney | Memorize/LevelSystem.swift:58-61 | the index and the star total both return to 0, and the current level is readable again |
| LevelSystem.GameSessionManager.Advance | Memorize/LevelSystem.swift:64-69 | the stars for the level are banked on every call; the session moves exactly when it was not on its final level, and then by one index; the index stays inside the campaign |
| LevelSystem.GameSessionManager.StarRating | Memorize/LevelSystem.swift:71-80 | 1 to 3 stars; 3 exactly when there were at most one mismatch (negative counts included); 1 exactly when there were four or more |
| LevelSystem.StarRatingMonotone | Memorize/LevelSystem.swift:71-80 | more mismatches never earn more stars |
| LevelSystem.AdvanceAndAwardStarsTrace | MemorizeTests/MemorizeTests.swift:33-41 | a new default session is on level 1; advancing with no mismatches moves to level 2 with 3 stars; advancing with 3 mismatches moves again and gives 5 stars |
| LevelSystem.FullCampaignTrace | Memorize/LevelSystem.swift:64-69 | five advances through the default campaign move four times, then stay on index 4, and bank 15 stars |
| MemoryGame.OneAndOnly | Memorize/MemoryGame.swift:65-70 | a value exactly when the array has one element, and then that element |
| MemoryGame.FaceUpIndices | Memorize/MemoryGame.swift:16 | the indices of exactly the face-up cards, in ascending order |
| MemoryGame.FaceUpIndicesCount | Memorize/MemoryGame.swift:16 | there are as many face-up indices as face-up cards |
| MemoryGame.IndexOfTheOnlyFaceUpCard | Memorize/MemoryGame.swift:15-16 | an index found by the getter is a face-up card of the deck |
| MemoryGame.OnlyFaceUpCard | Memorize/MemoryGame.swift:15-16 | the getter finds a card exactly when one card is face-up, matched or not, and then it finds that card |
| MemoryGame.WithOnlyFaceUp | Memorize/MemoryGame.swift:18 | the setter keeps the deck's size, ids, contents and matched cards; afterwards exactly the card at the new index is face-up, or no card when the index is nil or outside the deck |
| MemoryGame.AfterChoose | Memorize/MemoryGame.swift:23-39 | the reveal/match rule keeps the deck's size and never unmatches a card; the case lemmas below state the rest |
| MemoryGame.RevealBesideFaceUp | Memorize/MemoryGame.swift:29-34 | revealing a card beside the lone face-up card leaves exactly those two face-up, and adds both to the matched cards exactly when their contents are equal |
| MemoryGame.FirstIndexOfId | Memorize/MemoryGame.swift:25 | the position of the first card with the id, or nothing when no card has it |
| MemoryGame.MemoryGame.constructor | Memorize/MemoryGame.swift:41-49 | 2n face-down, unmatched cards; the cards at 2i and 2i+1 have ids 2i and 2i+1 and content createCardContent(i); all ids are distinct |
| MemoryGame.MemoryGame.SetIndexOfTheOnlyFaceUpCard | Memorize/MemoryGame.swift:18 | each card is face-up exactly when its index is the new value; nothing else changes |
| MemoryGame.MemoryGame.Choose | Memorize/MemoryGame.swift:23-39 | the deck becomes the deck the reveal/match rule gives for the chosen card's id |
| MemoryGame.ChooseUnknownId | Memorize/MemoryGame.swift:25 | choosing an id that no card has changes nothing |
| MemoryGame.ChooseFaceUpOrMatched | Memorize/MemoryGame.swift:25-28 | choosing a card that is already face-up or already matched changes nothing |
| MemoryGame.ChooseWithOneFaceUp | Memorize/MemoryGame.swift:29-34 | with exactly one other card face-up, the chosen card turns face-up; when the two contents are equal both become matched; no other card changes |
| MemoryGame.ChooseWithoutOneFaceUp | Memorize/MemoryGame.swift:35-37 | with no card or several cards face-up, the chosen card becomes the only face-up card (matched cards also turn face-down), and no matched flag, id or content changes |
| MemoryGame.ChooseKeepsDeck | Memorize/MemoryGame.swift:23-39 | a choice keeps the number and order of the cards, their ids and contents, and never unmatches a card |
| MemoryGame.ChooseTwiceIsChooseOnce | Memorize/MemoryGame.swift:25-28 | choosing the same id twice in a row does nothing beyond the first choice |
| MemoryGame.ChooseMatchesInPairs | Memorize/MemoryGame.swift:30-32 | between choices that keep the play invariant, the matched cards stay the same or gain exactly two previously unmatched cards with equal content |
| MemoryGame.ChooseKeepsFaceUpBound | Memorize/MemoryGame.swift:29-37 | after a choice at most two cards are face-up, and a lone face-up card is unmatched |
| MemoryGame.ChoosePreservesPlayInvariant | Memorize/MemoryGame.swift:23-39 | a choice keeps the play invariant: at most two cards face-up, a lone face-up card unmatched, an even number of matched cards |
| MemoryGame.NewDeckSatisfiesPlayInvariant | Memorize/MemoryGame.swift:41-49 | a new deck satisfies the play invariant |
| MemoryGame.PlayKeepsInvariant | Memorize/MemoryGame.swift:23-39 | any sequence of choices keeps the play invariant, the deck's size and every card's id and content |
| MemoryGame.PlayFromNewDeck | Memorize/MemoryGame.swift:23-58 | from a new deck of n pairs, after any sequence of choices: at most two cards face-up, a lone face-up card unmatched, an even number of matched cards, and the 2n cards keep their ids and contents |
| MemoryGame.TestRoundChooseFirstCar | MemorizeTests/MemorizeTests.swift:25 | in the two-pair test round, choosing the first car turns it face-up alone |
| MemoryGame.TestRoundChooseFirstRocket | MemorizeTests/MemorizeTests.swift:26 | choosing the first rocket next turns it face-up beside the car, neither matched |
| MemoryGame.TestRoundChooseSecondCar | MemorizeTests/MemorizeTests.swift:28 | choosing the second car with two cards up leaves it the only face-up card |
| MemoryGame.TestRoundChooseFirstCarAgain | MemorizeTests/MemorizeTests.swift:29 | choosing the first car again matches the two cars and leaves both face-up |
| MemoryGame.MatchAfterMismatchTrace | MemorizeTests/MemorizeTests.swift:13-31 | in the test round the mismatch leaves the car and the rocket face-up and unmatched, and the last choice matches exactly the two cars |
| EmojiMemoryGame.Pairs | Memorize/EmojiMemoryGame.swift:126-131 | two new cards per token, in token order, each carrying the bonus time |
| EmojiMemoryGame.PairsCount | Memorize/EmojiMemoryGame.swift:127-131 | each card occurs among the pairs twice as often as its token among the tokens |
| EmojiMemoryGame.DealtDeckCards | Memorize/EmojiMemoryGame.swift:122-133 | a dealt deck has two cards per chosen token, and each card is a new card with the bonus time and one of the chosen tokens |
| EmojiMemoryGame.DealtDeckTokenCounts | Memorize/EmojiMemoryGame.swift:123-132 | when the theme repeats no token, each chosen token is on exactly two cards of the deck and any other token on none |
| EmojiMemoryGame.DealtDeckSize | Memorize/EmojiMemoryGame.swift:122-133 | a deck dealt for a level has 2 × pairCount cards, is non-empty, and no card is matched |
| EmojiMemoryGame.DealtDeckIsNotOver | Memorize/EmojiMemoryGame.swift:35-37 | a freshly dealt deck is never a finished round |
| EmojiMemoryGame.EmojiMemoryGame.IsGameOver | Memorize/EmojiMemoryGame.swift:35-37 | the round is over when every card of the deck is matched, which a freshly dealt deck never is |
| EmojiMemoryGame.EmojiMemoryGame.LevelNumber | Memorize/EmojiMemoryGame.swift:43-45 | the active level's number, which is the number of the session's current level while the view model is in step with the session |
| EmojiMemoryGame.EmojiMemoryGame.constructor | Memorize/EmojiMemoryGame.swift:20-25 | the game starts on the session's current level with a deck dealt for it; the stored device limit is the supplied one or else the device's own; the round is not over |
| EmojiMemoryGame.EmojiMemoryGame.BuildDeck | Memorize/EmojiMemoryGame.swift:122-133 | 2 × pairCount cards, all face-down, unmatched and carrying the level's bonus time; as a multiset, two cards for each of pairCount tokens drawn from distinct positions of the theme's content |
| EmojiMemoryGame.EmojiMemoryGame.DealPairs | Memorize/EmojiMemoryGame.swift:125-132 | 2 × min(pairCount, content size) cards, each a new card carrying the bonus time and holding a token of the content; as a multiset, two cards for each token of a selection drawn from distinct positions of the content |
| EmojiMemoryGame.EmojiMemoryGame.PairUp | Memorize/EmojiMemoryGame.swift:126-131 | the loop builds exactly two new cards per token, in token order |
| EmojiMemoryGame.EmojiMemoryGame.ReloadActiveLevel | Memorize/EmojiMemoryGame.swift:114-120 | a fresh deck is dealt for the active level under the stored device limit, and the round is not over |
| EmojiMemoryGame.EmojiMemoryGame.RestartLevel | Memorize/EmojiMemoryGame.swift:93-95 | callable during play and on a finished round (any deck of the level's size); the active level and the device limit stay; the new deck is freshly dealt and has the old deck's size |
| EmojiMemoryGame.EmojiMemoryGame.RestartJourney | Memorize/EmojiMemoryGame.swift:97-101 | callable whatever state the deck is in; the session restarts with no stars, the active level becomes the first level, and a fresh deck is dealt for it |
| EmojiMemoryGame.EmojiMemoryGame.AdvanceLevel | Memorize/EmojiMemoryGame.swift:103-112 | callable on a played or finished round (any deck of the level's size); stars are banked; it reports whether the session moved; when it moved the active level follows the session with a fresh deck; otherwise the level and the deck are unchanged; the view model stays in step with the session |
| EmojiMemoryGame.LevelProgressionAndRestartTrace | MemorizeTests/MemorizeTests.swift:43-50 | on the default campaign advancing moves to the next level number, and restarting the journey returns to level 1 |
| EmojiMemoryGame.DeckSizesFollowLimitTrace | MemorizeTests/MemorizeTests.swift:52-62 | with a device limit of 3, the two mini levels each get six cards whatever pair counts they carry |
| EmojiMemoryGame.ReplayAndRestartJourneyTrace | MemorizeTests/MemorizeTests.swift:64-79 | replaying deals six cards again; after advancing, restarting the journey returns to level 1 with six cards |
| EmojiMemoryGame.PinnedDeviceLimitTrace | MemorizeTests/MemorizeTests.swift:81-88 | with the override pinned to 4, the first two default levels each get eight cards |

## Left out

- The round's `score`, `mismatchCount`, `shuffle`, `flipCardBack`, `flipCardsDown`, `MemoryGame(cards:)` and `Card(content:bonusTimeLimit:)` are called by the view model and the tests, but Memorize/MemoryGame.swift does not define them. No behaviour is invented for them.
- The bonus-time clock (`bonusTimeRemaining`, `bonusRemaining`) is read only by the view (Memorize/EmojiMemoryGameView.swift:46, 166-167, 197-198), and Memorize/MemoryGame.swift does not define it either. It is not modelled.
- The view model's `score`, `mismatchCount` and `projectedStars` getters depend on those undefined members, so they are not modelled.
- The view model's `choose` forwards to the round's `choose`, which `MemoryGame.MemoryGame.Choose` models on `Card` decks. The view model's deck is a sequence of `DeckCard` records, which `Choose` does not take, so in this model a choice never changes the view model's deck. Restarting and advancing still accept a played or finished deck: they require only that the deck has its level's size, and that choices keep the deck's size rests on `MemoryGame.ChooseKeepsDeck`. The deferred flip-down that `choose` schedules on a dispatch queue is not modelled.
- The view-model deck is a sequence of `DeckCard` records (content, bonus time, face-up, matched). The round's card type with bonus time is not part of this model, so `makeGame` is folded into `BuildDeck`.
- EmojiMemoryGame.EmojiMemoryGame.AdvanceLevel: takes the round's mismatch count as a parameter, because `mismatchCount` is not defined in Memorize/MemoryGame.swift.
- Both `progressFraction` getters are floating-point divisions and are not modelled.
- The view model's `levelTitle`, `cards` and `earnedStars` read a field. `themeName` and `palette` read a field of the theme looked up for the active level. `totalLevels` and `isOnFinalLevel` forward the session's getters, which `TotalLevels` and `IsOnFinalLevel` model. None of them is modelled separately.
- The random generator behind `shuffled()` is not modelled. Each shuffle is an arbitrary permutation.
- The UIKit reads of the interface idiom and the screen bounds, and the compile-time platform switch, are not modelled. They become the `Device` parameter.
- The static `overridePairLimit`, which the tests set and reset, is the `overridePairLimit` field of that `Device` value.
- Default arguments are not modelled: every caller passes the session and the device limit explicitly.
- The `themes` initializer fills a dictionary entry by entry. It is modelled as a constant map.
- Theme display names, palettes, content kinds, difficulty tags and sounds are not modelled. Neither are the levels' UUIDs and special rules, which are stored but never acted on.
- Swift's `Int` is 64-bit and traps on overflow in `earnedStars +=` and `index * 2`. The model's integers are unbounded, because no reachable state comes near the bound.
- LevelSystem.GameSessionManager.CurrentLevel: requires an index inside the campaign. Swift traps there, and an empty campaign would trap on the first read of the current level. So `EmojiMemoryGame.EmojiMemoryGame.constructor` requires a session whose current level is readable.
- MemoryGame.MemoryGame.constructor: takes the number of pairs as a `nat`. In Swift a negative count makes the range `0..<numberOfPairsOfCards` trap (Memorize/MemoryGame.swift:43), so that input has no behaviour to model.
- Swift's `MemoryGame` is a struct with mutating methods. It is modelled as a class whose methods update the deck, so value copies are not modelled.
- SwiftUI views, the grid layout, the app entry point and their timers are not modelled.
