/**
 * The values the settings view offers for each enumerated field, and the mood
 * emojis it shows beside them. Every call the view makes passes one of these
 * values, or the text of the greeting input, to the store's update.
 */
module SettingsOptions {
  import opened PreferenceTypes
  import opened PreferenceStore
  import MoodContent

  const ThemeChoices: seq<string> := ["light", "dark", "colorful"]

  datatype MoodChoice = MoodChoice(value: string, emoji: string)

  const MoodChoices: seq<MoodChoice> := [
    MoodChoice("cheerful", "\U{1F60A}"),
    MoodChoice("calm", "\U{1F60C}"),
    MoodChoice("energetic", "\U{26A1}"),
    MoodChoice("cozy", "\U{1F3E0}")
  ]

  const TextSizeChoices: seq<string> := ["small", "medium", "large", "xlarge"]

  predicate IsMoodChoice(s: string) {
    exists i :: 0 <= i < |MoodChoices| && MoodChoices[i].value == s
  }

  /** The calls the settings view can make: an offered value, or any greeting text. */
  predicate FromSettings(c: Call) {
    match c.field
    case ThemeField => c.value in ThemeChoices
    case MoodField => IsMoodChoice(c.value)
    case TextSizeField => c.value in TextSizeChoices
    case GreetingField => true
  }

  /** Each list offers exactly its field's domain. */
  lemma ChoicesAreTheDomains(s: string)
    ensures s in ThemeChoices <==> IsTheme(s)
    ensures IsMoodChoice(s) <==> IsMood(s)
    ensures s in TextSizeChoices <==> IsTextSize(s)
  {
    if IsMood(s) {
      match ParseMood(s).value
      case Cheerful => assert MoodChoices[0].value == s;
      case Calm => assert MoodChoices[1].value == s;
      case Energetic => assert MoodChoices[2].value == s;
      case Cozy => assert MoodChoices[3].value == s;
    }
  }

  /** Every call the settings view makes is in the named field's domain. */
  lemma SettingsCallsAreInDomain(c: Call)
    requires FromSettings(c)
    ensures InDomain(c.field, c.value)
  {
    ChoicesAreTheDomains(c.value);
  }

  /** A session driven by the settings view never leaves the domain. */
  lemma SettingsSessionStaysValid(calls: seq<Call>)
    requires forall i :: 0 <= i < |calls| ==> FromSettings(calls[i])
    ensures Valid(ApplyAll(Defaults(), calls))
  {
    forall i | 0 <= i < |calls| ensures InDomain(calls[i].field, calls[i].value) {
      SettingsCallsAreInDomain(calls[i]);
    }
    ApplyAllKeepsValid(Defaults(), calls);
  }

  /** The emoji the settings view shows beside a mood is the one the table holds for it. */
  lemma MoodEmojisAgree(i: nat)
    requires i < |MoodChoices|
    ensures MoodContent.Lookup(MoodChoices[i].value).Some?
    ensures MoodContent.Lookup(MoodChoices[i].value).value.emoji == MoodChoices[i].emoji
  {
    var m := [Cheerful, Calm, Energetic, Cozy][i];
    assert MoodName(m) == MoodChoices[i].value;
    MoodContent.EmojiCharacter(m);
  }
}
