/**
 * The card-matching round: a deck of cards, each face-up or face-down and
 * matched or not, and the rule that `choose` applies to the card a player
 * taps. The deck is the game's `cards` array; `Choose` updates it in place
 * and is proved against the function `AfterChoose`, about which the
 * properties of the rule are proved as lemmas.
 */
module MemoryGame {
  import opened Options

  /** A card of the deck; a new card is face-down and unmatched. */
  datatype Card<T> = Card(isFaceUp: bool, isMatched: bool, content: T, id: int)

  /** `oneAndOnly` of an array: its element when it has exactly one, `nil` otherwise. */
  function OneAndOnly<E>(s: seq<E>): (only: Option<E>)
    ensures only.Some? <==> |s| == 1
    ensures only.Some? ==> s == [only.value]
  {
    if |s| == 1 then Some(s[0]) else None
  }

  /** The indices of the face-up cards, in ascending order. */
  function FaceUpIndices<T>(cards: seq<Card<T>>): (indices: seq<nat>)
    ensures forall i :: 0 <= i < |indices| ==> indices[i] < |cards| && cards[indices[i]].isFaceUp
    ensures forall k :: 0 <= k < |cards| && cards[k].isFaceUp ==> k in indices
    ensures forall i, j :: 0 <= i < j < |indices| ==> indices[i] < indices[j]
  {
    if |cards| == 0 then []
    else
      var last := |cards| - 1;
      FaceUpIndices(cards[..last]) + if cards[last].isFaceUp then [last] else []
  }

  /** The getter: the index of the face-up card when exactly one card is face-up. */
  function IndexOfTheOnlyFaceUpCard<T>(cards: seq<Card<T>>): (only: Option<nat>)
    ensures only.Some? ==> only.value < |cards| && cards[only.value].isFaceUp
  {
    OneAndOnly(FaceUpIndices(cards))
  }

  /** The deck as the setter leaves it: exactly the card at `newValue` face-up. */
  function WithOnlyFaceUp<T>(cards: seq<Card<T>>, newValue: Option<int>): (after: seq<Card<T>>)
    ensures |after| == |cards|
    ensures newValue.Some? && 0 <= newValue.value < |cards| ==> FaceUpSet(after) == {newValue.value}
    ensures !(newValue.Some? && 0 <= newValue.value < |cards|) ==> FaceUpSet(after) == {}
    ensures MatchedSet(after) == MatchedSet(cards)
    ensures forall k :: 0 <= k < |cards| ==> after[k].id == cards[k].id && after[k].content == cards[k].content
  {
    seq(|cards|, k requires 0 <= k < |cards| => cards[k].(isFaceUp := newValue == Some(k)))
  }

  /** The index of the first card whose id is `id`, if there is one. */
  function FirstIndexOfId<T>(cards: seq<Card<T>>, id: int): (found: Option<nat>)
    ensures found.Some? ==> IsFirstWithId(cards, id, found.value)
    ensures found.None? ==> forall k :: 0 <= k < |cards| ==> cards[k].id != id
  {
    if |cards| == 0 then None
    else if cards[0].id == id then Some(0)
    else match FirstIndexOfId(cards[1..], id)
      case None => None
      case Some(k) => Some(k + 1)
  }

  /** `c` is the position of the first card with id `id`. */
  ghost predicate IsFirstWithId<T>(cards: seq<Card<T>>, id: int, c: int) {
    0 <= c < |cards| && cards[c].id == id && forall k :: 0 <= k < c ==> cards[k].id != id
  }

  /** The deck after the player chooses the card with id `id`. */
  function AfterChoose<T(==)>(cards: seq<Card<T>>, id: int): (after: seq<Card<T>>)
    ensures |after| == |cards|
    ensures MatchedSet(cards) <= MatchedSet(after)
  {
    match FirstIndexOfId(cards, id)
    case None => cards
    case Some(c) =>
      if cards[c].isFaceUp || cards[c].isMatched then cards
      else
        match IndexOfTheOnlyFaceUpCard(cards)
        case Some(p) =>
          var matched :=
            if cards[c].content == cards[p].content
            then cards[c := cards[c].(isMatched := true)][p := cards[p].(isMatched := true)]
            else cards;
          matched[c := matched[c].(isFaceUp := true)]
        case None => WithOnlyFaceUp(cards, Some(c))
  }

  /** The deck after a sequence of choices, one id after another. */
  function ChooseAll<T(==)>(cards: seq<Card<T>>, ids: seq<int>): seq<Card<T>>
    decreases |ids|
  {
    if ids == [] then cards else ChooseAll(AfterChoose(cards, ids[0]), ids[1..])
  }

  /** The positions of the face-up cards. */
  ghost function FaceUpSet<T>(cards: seq<Card<T>>): set<int> {
    set k | 0 <= k < |cards| && cards[k].isFaceUp
  }

  /** The positions of the matched cards. */
  ghost function MatchedSet<T>(cards: seq<Card<T>>): set<int> {
    set k | 0 <= k < |cards| && cards[k].isMatched
  }

  /**
   * The deck that `init(numberOfPairsOfCards: n, createCardContent: f)`
   * builds: 2n face-down, unmatched cards, the cards at 2i and 2i+1 with ids
   * 2i and 2i+1 and content f(i).
   */
  ghost predicate IsNewDeck<T>(cards: seq<Card<T>>, n: nat, f: int -> T) {
    |cards| == 2 * n
    && forall k :: 0 <= k < |cards| ==> cards[k] == Card(false, false, f(k / 2), k)
  }

  /**
   * What holds between choices in a round that started from a new deck: at
   * most two cards are face-up, a lone face-up card is unmatched, and the
   * matched cards come in pairs.
   */
  ghost predicate PlayInvariant<T>(cards: seq<Card<T>>) {
    |FaceUpSet(cards)| <= 2
    && (|FaceUpSet(cards)| == 1 ==> forall k :: 0 <= k < |cards| && cards[k].isFaceUp ==> !cards[k].isMatched)
    && |MatchedSet(cards)| % 2 == 0
  }

  /** One round of the matching game over cards whose contents are of type `T`. */
  class MemoryGame<T(==)> {
    var cards: seq<Card<T>>

    /** Deals `numberOfPairsOfCards` pairs, the pair i with content `createCardContent(i)`. */
    constructor (numberOfPairsOfCards: nat, createCardContent: int -> T)
      ensures IsNewDeck(cards, numberOfPairsOfCards, createCardContent)
      ensures |cards| == 2 * numberOfPairsOfCards
      ensures forall k :: 0 <= k < |cards| ==> !cards[k].isFaceUp && !cards[k].isMatched
      ensures forall i :: 0 <= i < numberOfPairsOfCards ==>
        cards[2 * i].id == 2 * i && cards[2 * i + 1].id == 2 * i + 1
        && cards[2 * i].content == cards[2 * i + 1].content == createCardContent(i)
      ensures forall j, k :: 0 <= j < k < |cards| ==> cards[j].id != cards[k].id
    {
      var dealt: seq<Card<T>> := [];
      for index := 0 to numberOfPairsOfCards
        invariant IsNewDeck(dealt, index, createCardContent)
      {
        var content := createCardContent(index);
        dealt := dealt + [Card(false, false, content, index * 2)];
        dealt := dealt + [Card(false, false, content, index * 2 + 1)];
      }
      cards := dealt;
      new;
      forall i | 0 <= i < numberOfPairsOfCards
        ensures cards[2 * i].content == cards[2 * i + 1].content == createCardContent(i)
      {
        assert (2 * i + 1) / 2 == i;
      }
    }

    /** The setter of `indexOfTheOnlyFaceUpCard`: turns each card face-up exactly when its index is `newValue`. */
    method SetIndexOfTheOnlyFaceUpCard(newValue: Option<int>)
      modifies this
      ensures cards == WithOnlyFaceUp(old(cards), newValue)
    {
      for i := 0 to |cards|
        invariant |cards| == |old(cards)|
        invariant forall k :: 0 <= k < i ==> cards[k] == old(cards)[k].(isFaceUp := newValue == Some(k))
        invariant forall k :: i <= k < |cards| ==> cards[k] == old(cards)[k]
      {
        cards := cards[i := cards[i].(isFaceUp := newValue == Some(i))];
      }
    }

    /**
     * The player chooses `card`. Nothing happens unless the deck holds a card
     * with its id that is face-down and unmatched. If exactly one card is
     * face-up, the chosen card turns face-up and, when the two contents are
     * equal, both become matched; otherwise the chosen card becomes the only
     * face-up card.
     */
    method Choose(card: Card<T>)
      modifies this
      ensures cards == AfterChoose(old(cards), card.id)
    {
      var chosen := FirstIndexOfId(cards, card.id);
      if chosen.Some? && !cards[chosen.value].isFaceUp && !cards[chosen.value].isMatched {
        var c := chosen.value;
        var potentialMatch := IndexOfTheOnlyFaceUpCard(cards);
        if potentialMatch.Some? {
          var p := potentialMatch.value;
          if cards[c].content == cards[p].content {
            cards := cards[c := cards[c].(isMatched := true)];
            cards := cards[p := cards[p].(isMatched := true)];
          }
          cards := cards[c := cards[c].(isFaceUp := true)];
        } else {
          SetIndexOfTheOnlyFaceUpCard(Some(c));
        }
      }
    }
  }

  // ---------------------------------------------------------------------
  // The only face-up card

  /** The face-up positions of a deck are those of its front plus, if it is face-up, the last card. */
  lemma FaceUpSetOfFront<T>(cards: seq<Card<T>>)
    requires cards != []
    ensures var last := |cards| - 1;
      && last !in FaceUpSet(cards[..last])
      && FaceUpSet(cards) == FaceUpSet(cards[..last]) + if cards[last].isFaceUp then {last} else {}
  {
  }

  /** There are as many face-up indices as face-up cards. */
  lemma {:induction false} FaceUpIndicesCount<T>(cards: seq<Card<T>>)
    ensures |FaceUpIndices(cards)| == |FaceUpSet(cards)|
  {
    if cards != [] {
      FaceUpIndicesCount(cards[..|cards| - 1]);
      FaceUpSetOfFront(cards);
    }
  }

  /** The getter finds a card exactly when one card, and no other, is face-up. */
  lemma OnlyFaceUpCard<T>(cards: seq<Card<T>>)
    ensures IndexOfTheOnlyFaceUpCard(cards).Some? <==> |FaceUpSet(cards)| == 1
    ensures IndexOfTheOnlyFaceUpCard(cards).Some? ==> FaceUpSet(cards) == {IndexOfTheOnlyFaceUpCard(cards).value}
  {
    FaceUpIndicesCount(cards);
    var r := FaceUpIndices(cards);
    if |r| == 1 {
      assert FaceUpSet(cards) == {r[0]};
    }
  }

  // ---------------------------------------------------------------------
  // What one choice does

  /** Choosing an id that no card has changes nothing. */
  lemma ChooseUnknownId<T>(cards: seq<Card<T>>, id: int)
    requires forall k :: 0 <= k < |cards| ==> cards[k].id != id
    ensures AfterChoose(cards, id) == cards
  {
  }

  /** Choosing a card that is already face-up or already matched changes nothing. */
  lemma ChooseFaceUpOrMatched<T>(cards: seq<Card<T>>, id: int, c: int)
    requires IsFirstWithId(cards, id, c)
    requires cards[c].isFaceUp || cards[c].isMatched
    ensures AfterChoose(cards, id) == cards
  {
    var found := FirstIndexOfId(cards, id);
    assert found == Some(c);
  }

  /**
   * With exactly one card `p` face-up, the chosen card turns face-up; when
   * its content equals that of `p` both become matched; no other card changes.
   */
  lemma ChooseWithOneFaceUp<T>(cards: seq<Card<T>>, id: int, c: int, p: int)
    requires IsFirstWithId(cards, id, c)
    requires !cards[c].isFaceUp && !cards[c].isMatched
    requires FaceUpSet(cards) == {p}
    ensures var after := AfterChoose(cards, id);
      var same := cards[c].content == cards[p].content;
      && 0 <= p < |cards| && p != c
      && |after| == |cards|
      && after[c] == cards[c].(isFaceUp := true, isMatched := same)
      && after[p] == cards[p].(isMatched := cards[p].isMatched || same)
      && (forall k :: 0 <= k < |cards| && k != c && k != p ==> after[k] == cards[k])
      && FaceUpSet(after) == {c, p}
      && MatchedSet(after) == MatchedSet(cards) + if same then {c, p} else {}
  {
    assert p in FaceUpSet(cards);
    assert FirstIndexOfId(cards, id) == Some(c);
    OnlyFaceUpCard(cards);
    assert IndexOfTheOnlyFaceUpCard(cards) == Some(p);
    RevealBesideFaceUp(cards, c, p);
  }

  /** The deck `choose` makes when card `c` is revealed beside the lone face-up card `p`, and its face-up cards. */
  lemma RevealBesideFaceUp<T>(cards: seq<Card<T>>, c: int, p: int)
    requires 0 <= c < |cards| && 0 <= p < |cards| && c != p
    requires FaceUpSet(cards) == {p}
    ensures var matched :=
        if cards[c].content == cards[p].content
        then cards[c := cards[c].(isMatched := true)][p := cards[p].(isMatched := true)]
        else cards;
      var after := matched[c := matched[c].(isFaceUp := true)];
      && FaceUpSet(after) == {c, p}
      && MatchedSet(after) == MatchedSet(cards) + if cards[c].content == cards[p].content then {c, p} else {}
  {
    var matched :=
      if cards[c].content == cards[p].content
      then cards[c := cards[c].(isMatched := true)][p := cards[p].(isMatched := true)]
      else cards;
    var after := matched[c := matched[c].(isFaceUp := true)];
    forall k | 0 <= k < |after|
      ensures after[k].isFaceUp <==> k == c || k == p
    {
      if k != c && k != p {
        assert k !in FaceUpSet(cards);
      } else if k == p {
        assert p in FaceUpSet(cards);
      }
    }
    assert FaceUpSet(after) == {c, p};
    assert MatchedSet(after) == MatchedSet(cards) + if cards[c].content == cards[p].content then {c, p} else {};
  }

  /**
   * With no card or several cards face-up, the chosen card becomes the only
   * face-up card: every other card, matched ones included, turns face-down,
   * and no card's matched flag changes.
   */
  lemma ChooseWithoutOneFaceUp<T>(cards: seq<Card<T>>, id: int, c: int)
    requires IsFirstWithId(cards, id, c)
    requires !cards[c].isFaceUp && !cards[c].isMatched
    requires |FaceUpSet(cards)| != 1
    ensures var after := AfterChoose(cards, id);
      && |after| == |cards|
      && after[c].isFaceUp
      && (forall k :: 0 <= k < |cards| && k != c ==> !after[k].isFaceUp)
      && (forall k :: 0 <= k < |cards| ==> after[k].isMatched == cards[k].isMatched)
      && (forall k :: 0 <= k < |cards| ==> after[k].id == cards[k].id && after[k].content == cards[k].content)
      && FaceUpSet(after) == {c}
      && MatchedSet(after) == MatchedSet(cards)
  {
    assert FirstIndexOfId(cards, id) == Some(c);
    OnlyFaceUpCard(cards);
    assert AfterChoose(cards, id) == WithOnlyFaceUp(cards, Some(c));
  }

  /** A choice never reorders, adds or removes cards, never changes an id or a content, and never unmatches a card. */
  lemma ChooseKeepsDeck<T>(cards: seq<Card<T>>, id: int)
    ensures var after := AfterChoose(cards, id);
      && |after| == |cards|
      && forall k :: 0 <= k < |cards| ==>
        && after[k].id == cards[k].id
        && after[k].content == cards[k].content
        && (cards[k].isMatched ==> after[k].isMatched)
  {
  }

  /** Choosing the same card twice in a row does nothing beyond the first choice. */
  lemma ChooseTwiceIsChooseOnce<T>(cards: seq<Card<T>>, id: int)
    ensures AfterChoose(AfterChoose(cards, id), id) == AfterChoose(cards, id)
  {
    var after := AfterChoose(cards, id);
    ChooseKeepsDeck(cards, id);
    match FirstIndexOfId(cards, id)
    case None =>
    case Some(c) =>
      if !cards[c].isFaceUp && !cards[c].isMatched {
        assert IsFirstWithId(after, id, c);
        assert after[c].isFaceUp;
        ChooseFaceUpOrMatched(after, id, c);
      }
  }

  /** Two new, distinct positions grow a set by two. */
  lemma AddTwoNewElements(s: set<int>, a: int, b: int)
    requires a !in s && b !in s && a != b
    ensures |s + {a, b}| == |s| + 2
  {
    assert s + {a, b} == (s + {a}) + {b};
  }

  /**
   * In a round that keeps the play invariant, cards become matched only two
   * at a time, and only two cards with equal contents.
   */
  lemma ChooseMatchesInPairs<T>(cards: seq<Card<T>>, id: int)
    requires PlayInvariant(cards)
    ensures var after := AfterChoose(cards, id);
      || MatchedSet(after) == MatchedSet(cards)
      || exists a, b ::
        && 0 <= a < b < |cards|
        && a !in MatchedSet(cards) && b !in MatchedSet(cards)
        && cards[a].content == cards[b].content
        && MatchedSet(after) == MatchedSet(cards) + {a, b}
    ensures var after := AfterChoose(cards, id);
      |MatchedSet(after)| == |MatchedSet(cards)| || |MatchedSet(after)| == |MatchedSet(cards)| + 2
  {
    var after := AfterChoose(cards, id);
    ChooseKeepsDeck(cards, id);
    match FirstIndexOfId(cards, id)
    case None =>
    case Some(c) =>
      if !cards[c].isFaceUp && !cards[c].isMatched {
        OnlyFaceUpCard(cards);
        match IndexOfTheOnlyFaceUpCard(cards)
        case None =>
          ChooseWithoutOneFaceUp(cards, id, c);
        case Some(p) =>
          ChooseWithOneFaceUp(cards, id, c, p);
          if cards[c].content == cards[p].content {
            assert p in FaceUpSet(cards);
            var a, b := if c < p then c else p, if c < p then p else c;
            assert {c, p} == {a, b};
            AddTwoNewElements(MatchedSet(cards), a, b);
          }
      }
  }

  /** In a round that keeps the play invariant, at most two cards stay face-up and a lone face-up card is unmatched. */
  lemma ChooseKeepsFaceUpBound<T>(cards: seq<Card<T>>, id: int)
    requires PlayInvariant(cards)
    ensures var after := AfterChoose(cards, id);
      && |FaceUpSet(after)| <= 2
      && (|FaceUpSet(after)| == 1 ==> forall k :: 0 <= k < |after| && after[k].isFaceUp ==> !after[k].isMatched)
  {
    var after := AfterChoose(cards, id);
    match FirstIndexOfId(cards, id)
    case None =>
      assert after == cards;
    case Some(c) =>
      if cards[c].isFaceUp || cards[c].isMatched {
        assert after == cards;
      } else {
        OnlyFaceUpCard(cards);
        match IndexOfTheOnlyFaceUpCard(cards)
        case None =>
          ChooseWithoutOneFaceUp(cards, id, c);
        case Some(p) =>
          ChooseWithOneFaceUp(cards, id, c, p);
      }
  }

  /** A choice keeps the play invariant. */
  lemma ChoosePreservesPlayInvariant<T>(cards: seq<Card<T>>, id: int)
    requires PlayInvariant(cards)
    ensures PlayInvariant(AfterChoose(cards, id))
  {
    ChooseMatchesInPairs(cards, id);
    ChooseKeepsFaceUpBound(cards, id);
    PlayInvariantStep(cards, AfterChoose(cards, id));
  }

  /** The play invariant carries over to a deck whose face-up cards keep it and whose matched cards grow by zero or two. */
  lemma PlayInvariantStep<T>(cards: seq<Card<T>>, after: seq<Card<T>>)
    requires PlayInvariant(cards)
    requires |FaceUpSet(after)| <= 2
    requires |FaceUpSet(after)| == 1 ==> forall k :: 0 <= k < |after| && after[k].isFaceUp ==> !after[k].isMatched
    requires |MatchedSet(after)| == |MatchedSet(cards)| || |MatchedSet(after)| == |MatchedSet(cards)| + 2
    ensures PlayInvariant(after)
  {
  }

  /** A new deck has no card face-up and no card matched. */
  lemma NewDeckSatisfiesPlayInvariant<T>(cards: seq<Card<T>>, n: nat, f: int -> T)
    requires IsNewDeck(cards, n, f)
    ensures PlayInvariant(cards)
  {
    assert FaceUpSet(cards) == {};
    assert MatchedSet(cards) == {};
  }

  /**
   * From a new deck, after any sequence of choices: at most two cards are
   * face-up, a lone face-up card is unmatched, the number of matched cards
   * is even, and the deck still has its 2n cards with their ids and contents.
   */
  lemma {:induction false} PlayFromNewDeck<T>(cards: seq<Card<T>>, n: nat, f: int -> T, ids: seq<int>)
    requires IsNewDeck(cards, n, f)
    ensures var after := ChooseAll(cards, ids);
      && |FaceUpSet(after)| <= 2
      && (|FaceUpSet(after)| == 1 ==> forall k :: 0 <= k < |after| && after[k].isFaceUp ==> !after[k].isMatched)
      && |MatchedSet(after)| % 2 == 0
      && |after| == 2 * n
      && forall k :: 0 <= k < |after| ==> after[k].id == k && after[k].content == f(k / 2)
  {
    NewDeckSatisfiesPlayInvariant(cards, n, f);
    PlayKeepsInvariant(cards, ids);
  }

  /** A sequence of choices keeps the play invariant and the deck's ids and contents. */
  lemma {:induction false} PlayKeepsInvariant<T>(cards: seq<Card<T>>, ids: seq<int>)
    requires PlayInvariant(cards)
    ensures var after := ChooseAll(cards, ids);
      && PlayInvariant(after)
      && |after| == |cards|
      && forall k :: 0 <= k < |after| ==> after[k].id == cards[k].id && after[k].content == cards[k].content
    decreases |ids|
  {
    if ids != [] {
      ChoosePreservesPlayInvariant(cards, ids[0]);
      ChooseKeepsDeck(cards, ids[0]);
      PlayKeepsInvariant(AfterChoose(cards, ids[0]), ids[1..]);
    }
  }

  /** The decks of the unit test's round, one per choice. */
  function TestRoundDeck(step: nat, car: string, rocket: string): seq<Card<string>>
    requires step <= 4
  {
    match step
    case 0 => [Card(false, false, car, 0), Card(false, false, car, 1), Card(false, false, rocket, 2), Card(false, false, rocket, 3)]
    case 1 => [Card(true, false, car, 0), Card(false, false, car, 1), Card(false, false, rocket, 2), Card(false, false, rocket, 3)]
    case 2 => [Card(true, false, car, 0), Card(false, false, car, 1), Card(true, false, rocket, 2), Card(false, false, rocket, 3)]
    case 3 => [Card(false, false, car, 0), Card(true, false, car, 1), Card(false, false, rocket, 2), Card(false, false, rocket, 3)]
    case 4 => [Card(true, true, car, 0), Card(true, true, car, 1), Card(false, false, rocket, 2), Card(false, false, rocket, 3)]
  }

  /** The ids the unit test's round chooses: car 0, rocket 2, car 1, car 0. */
  function TestRoundId(step: nat): int
    requires step < 4
  {
    [0, 2, 1, 0][step]
  }

  /** In the unit test's round: Nothing is face-up, so car 0 becomes the only face-up card. */
  lemma TestRoundChooseFirstCar(car: string, rocket: string)
    requires car != rocket
    ensures AfterChoose(TestRoundDeck(0, car, rocket), TestRoundId(0)) == TestRoundDeck(1, car, rocket)
  {
    var deck := TestRoundDeck(0, car, rocket);
    assert FaceUpSet(deck) == {};
    ChooseWithoutOneFaceUp(deck, 0, 0);
  }

  /** In the unit test's round: Car 0 is the only face-up card, so rocket 2 turns face-up beside it, unmatched. */
  lemma TestRoundChooseFirstRocket(car: string, rocket: string)
    requires car != rocket
    ensures AfterChoose(TestRoundDeck(1, car, rocket), TestRoundId(1)) == TestRoundDeck(2, car, rocket)
  {
    var deck := TestRoundDeck(1, car, rocket);
    assert FaceUpSet(deck) == {0};
    ChooseWithOneFaceUp(deck, 2, 2, 0);
  }

  /** In the unit test's round: Two cards are face-up, so car 1 becomes the only face-up card. */
  lemma TestRoundChooseSecondCar(car: string, rocket: string)
    requires car != rocket
    ensures AfterChoose(TestRoundDeck(2, car, rocket), TestRoundId(2)) == TestRoundDeck(3, car, rocket)
  {
    var deck := TestRoundDeck(2, car, rocket);
    assert FaceUpSet(deck) == {0, 2};
    ChooseWithoutOneFaceUp(deck, 1, 1);
  }

  /** In the unit test's round: Car 1 is the only face-up card, so car 0 turns face-up and both cars are matched. */
  lemma TestRoundChooseFirstCarAgain(car: string, rocket: string)
    requires car != rocket
    ensures AfterChoose(TestRoundDeck(3, car, rocket), TestRoundId(3)) == TestRoundDeck(4, car, rocket)
  {
    var deck := TestRoundDeck(3, car, rocket);
    assert FaceUpSet(deck) == {1};
    ChooseWithOneFaceUp(deck, 0, 0, 1);
  }

  /**
   * The round of the unit test: two pairs, a car at ids 0 and 1 and a
   * rocket at ids 2 and 3. Choosing car 0 then rocket 2 is a mismatch that
   * leaves both face-up and unmatched; choosing car 1 and then car 0 again
   * matches the cars, and the rockets stay unmatched.
   */
  method MatchAfterMismatchTrace() returns (afterMismatch: seq<Card<string>>, matched: seq<bool>)
    ensures |afterMismatch| == 4
    ensures afterMismatch[0].isFaceUp && afterMismatch[2].isFaceUp
    ensures !afterMismatch[0].isMatched && !afterMismatch[2].isMatched
    ensures matched == [true, true, false, false]
  {
    var car, rocket := "🚗", "🚀";
    var game := new MemoryGame<string>(2, (index: int) => if index == 0 then car else rocket);
    assert game.cards == TestRoundDeck(0, car, rocket);
    var firstCar, firstRocket, secondCar := game.cards[0], game.cards[2], game.cards[1];
    assert firstCar.content == car && firstRocket.content == rocket && secondCar.content == car;
    TestRoundChooseFirstCar(car, rocket);
    game.Choose(firstCar);
    TestRoundChooseFirstRocket(car, rocket);
    game.Choose(firstRocket);
    afterMismatch := game.cards;
    TestRoundChooseSecondCar(car, rocket);
    game.Choose(secondCar);
    TestRoundChooseFirstCarAgain(car, rocket);
    game.Choose(firstCar);
    matched := [game.cards[0].isMatched, game.cards[1].isMatched, game.cards[2].isMatched, game.cards[3].isMatched];
  }
}
