/**
 * The theme table of the game: every theme id and the content tokens a deck
 * of that theme is built from. Palettes, display names, content kinds,
 * difficulty tags and sound names are not part of this model; the content
 * tokens are opaque strings, written with exactly the code points the table
 * holds (several of them are emoji whose UTF-8 bytes were read as
 * Windows-1252, which drops the bytes it does not define).
 */
module ThemeLibrary {

  /** The identifiers of the six themes, in declaration order. */
  datatype ThemeID = FriendlyCars | RainbowNumbers | LetterLab | TinyWords | AdventureMix | JungleDiscovery

  /** A theme, reduced to its id and its ordered content tokens. */
  datatype GameTheme = GameTheme(id: ThemeID, content: seq<string>)

  /** The table of themes, one entry per id. */
  const Themes: map<ThemeID, GameTheme> := map[
    FriendlyCars := GameTheme(FriendlyCars, FriendlyCarsContent()),
    RainbowNumbers := GameTheme(RainbowNumbers, RainbowNumbersContent()),
    LetterLab := GameTheme(LetterLab, LetterLabContent()),
    TinyWords := GameTheme(TinyWords, TinyWordsContent()),
    AdventureMix := GameTheme(AdventureMix, AdventureMixContent()),
    JungleDiscovery := GameTheme(JungleDiscovery, JungleDiscoveryContent())
  ]

  /** The content tokens of the friendly-cars theme. */
  function FriendlyCarsContent(): seq<string> {
    ["ðŸš—", "ðŸš•", "ðŸš™", "ðŸšŒ", "ðŸšŽ", "ðŸŽ", "ðŸš“", "ðŸš‘"]
  }

  /** The content tokens of the rainbow-numbers theme. */
  function RainbowNumbersContent(): seq<string> {
    ["0", "1", "2", "3", "4", "5", "6", "7", "8", "9"]
  }

  /** The content tokens of the letter-lab theme. */
  function LetterLabContent(): seq<string> {
    ["A", "B", "C", "D", "E", "F", "G", "H", "I", "J", "K", "L"]
  }

  /** The content tokens of the tiny-words theme. */
  function TinyWordsContent(): seq<string> {
    ["cat", "sun", "map", "hat", "dog", "car", "bug", "cup"]
  }

  /** The content tokens of the adventure-mix theme. */
  function AdventureMixContent(): seq<string> {
    ["ðŸš€", "ðŸ¦Š", "7", "Q", "ship", "hero", "kite", "ring"]
  }

  /** The content tokens of the jungle-discovery theme. */
  function JungleDiscoveryContent(): seq<string> {
    ["ðŸ¦", "ðŸ¯", "ðŸµ", "ðŸ¦“", "ðŸ¦’", "ðŸ¼", "ðŸ¦œ", "ðŸ˜"]
  }

  /** The theme stored for `id`, falling back to the friendly-cars theme when the table has no entry. */
  function ThemeFor(id: ThemeID): (theme: GameTheme)
    ensures id in Themes ==> theme == Themes[id]
    ensures id !in Themes ==> theme == Themes[FriendlyCars]
  {
    if id in Themes then Themes[id] else Themes[FriendlyCars]
  }

  /** Every id has its own entry, so the fallback is never taken. */
  lemma ThemeForReturnsOwnTheme(id: ThemeID)
    ensures id in Themes
    ensures ThemeFor(id).id == id
  {
  }

  /** The number of content tokens of each theme; all of them are non-empty. */
  lemma ThemeContentSizes()
    ensures |ThemeFor(FriendlyCars).content| == 8
    ensures |ThemeFor(RainbowNumbers).content| == 10
    ensures |ThemeFor(LetterLab).content| == 12
    ensures |ThemeFor(TinyWords).content| == 8
    ensures |ThemeFor(AdventureMix).content| == 8
    ensures |ThemeFor(JungleDiscovery).content| == 8
    ensures forall id: ThemeID :: |ThemeFor(id).content| >= 1
  {
  }

  /** No token occurs twice in `s`. */
  predicate NoDuplicates<T(==)>(s: seq<T>) {
    forall i, j :: 0 <= i < j < |s| ==> s[i] != s[j]
  }

  /** No theme repeats a token. */
  lemma ThemeContentDistinct(id: ThemeID)
    ensures NoDuplicates(ThemeFor(id).content)
  {
    ThemeForReturnsOwnTheme(id);
    match id
    case FriendlyCars => FriendlyCarsDistinct();
    case RainbowNumbers => RainbowNumbersDistinct();
    case LetterLab => LetterLabDistinct();
    case TinyWords => TinyWordsDistinct();
    case AdventureMix => AdventureMixDistinct();
    case JungleDiscovery => JungleDiscoveryDistinct();
  }

  // One distinctness fact per theme, kept apart so that each stays small.

  lemma FriendlyCarsDistinct()
    ensures NoDuplicates(FriendlyCarsContent())
  {
  }

  lemma RainbowNumbersDistinct()
    ensures NoDuplicates(RainbowNumbersContent())
  {
  }

  lemma LetterLabDistinct()
    ensures NoDuplicates(LetterLabContent())
  {
  }

  lemma TinyWordsDistinct()
    ensures NoDuplicates(TinyWordsContent())
  {
  }

  lemma AdventureMixDistinct()
    ensures NoDuplicates(AdventureMixContent())
  {
  }

  lemma JungleDiscoveryDistinct()
    ensures NoDuplicates(JungleDiscoveryContent())
  {
  }

  /** In a sequence without duplicates, every token occurs at most once. */
  lemma {:induction false} NoDuplicatesOccurAtMostOnce<T>(s: seq<T>, t: T)
    requires NoDuplicates(s)
    ensures multiset(s)[t] <= 1
    ensures t in s ==> multiset(s)[t] == 1
  {
    if s != [] {
      assert s == [s[0]] + s[1..];
      assert NoDuplicates(s[1..]);
      NoDuplicatesOccurAtMostOnce(s[1..], t);
      if s[0] == t {
        assert t !in s[1..];
      }
    }
  }
}
