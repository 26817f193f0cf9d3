/**
 * The mood content table: for each mood, the emoji, quote and two colours the
 * preview shows. The colours are kept as opaque strings.
 */
module MoodContent {
  import opened Wrappers
  import opened PreferenceTypes

  datatype MoodData = MoodData(emoji: string, quote: string, color: string, bgColor: string)

  /**
   * The table's entry for a mood. It is a fixed, total function of the mood;
   * every emoji is a single code point and every quote is non-empty.
   */
  function Content(m: Mood): (d: MoodData)
    ensures |d.emoji| == 1
    ensures d.quote != []
  {
    match m
    case Cheerful =>
      MoodData("\U{1F60A}",
               "Every day is a new beginning. Take a deep breath, smile, and start again.",
               "#fbbf24", "rgba(251, 191, 36, 0.2)")
    case Calm =>
      MoodData("\U{1F60C}",
               "Peace comes from within. Do not seek it without.",
               "#60a5fa", "rgba(96, 165, 250, 0.2)")
    case Energetic =>
      MoodData("\U{26A1}",
               "Your energy introduces you before you even speak!",
               "#fb923c", "rgba(251, 146, 60, 0.2)")
    case Cozy =>
      MoodData("\U{1F3E0}",
               "Home is not a place, it's a feeling of warmth and belonging.",
               "#f87171", "rgba(248, 113, 113, 0.2)")
  }

  /**
   * Indexing the table by the string a record holds: the table has one key per
   * mood name and no other key.
   */
  function Lookup(key: string): (r: Option<MoodData>)
    ensures r.Some? <==> exists m :: MoodName(m) == key
    ensures forall m :: MoodName(m) == key ==> r == Some(Content(m))
  {
    match ParseMood(key)
    case Some(m) =>
      assert forall m' :: MoodName(m') == key ==> m' == m by {
        forall m' | MoodName(m') == key ensures m' == m {
          NamesAreDistinct(Light, Light, m', m, Small, Small);
        }
      }
      Some(Content(m))
    case None => None
  }

  /** No two moods share an emoji. */
  lemma EmojisAreDistinct(m1: Mood, m2: Mood)
    requires m1 != m2
    ensures Content(m1).emoji != Content(m2).emoji
  {
    // each emoji is a single character, and the four characters differ
    EmojiCharacter(m1);
    EmojiCharacter(m2);
  }

  lemma EmojiCharacter(m: Mood)
    ensures Content(m).emoji == [match m
      case Cheerful => '\U{1F60A}' case Calm => '\U{1F60C}'
      case Energetic => '\U{26A1}' case Cozy => '\U{1F3E0}']
  {
    match m
    case Cheerful =>
    case Calm =>
    case Energetic =>
    case Cozy =>
  }

  /** No two moods share a quote. */
  lemma QuotesAreDistinct(m1: Mood, m2: Mood)
    requires m1 != m2
    ensures Content(m1).quote != Content(m2).quote
  {
    // the four quotes have different lengths
    QuoteLength(m1);
    QuoteLength(m2);
  }

  lemma QuoteLength(m: Mood)
    ensures |Content(m).quote| == match m
      case Cheerful => 73 case Calm => 48 case Energetic => 49 case Cozy => 60
  {
    match m
    case Cheerful =>
    case Calm =>
    case Energetic =>
    case Cozy =>
  }

  /** The preview's lookup of a valid record's mood always finds an entry. */
  lemma PreviewLookupSucceeds(p: Preferences)
    requires Valid(p)
    ensures Lookup(p.mood) == Some(Content(ParseMood(p.mood).value))
  {
  }
}
