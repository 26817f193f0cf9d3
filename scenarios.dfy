/**
 * Sessions a user can drive through the two views, stated against the store
 * object itself.
 */
module Scenarios {
  import opened Wrappers
  import opened PreferenceTypes
  import opened PreferenceStore
  import MoodContent

  /** From the defaults, choose the dark theme, then the large text size. */
  method DarkThenLarge() returns (p: Preferences)
    ensures p == Preferences("dark", "cheerful", "large", "Hello there!")
    ensures Decode(p) == Some(Snapshot(Dark, Cheerful, Large, "Hello there!"))
  {
    var store := new Store();
    store.UpdatePreference(ThemeField, "dark");
    store.UpdatePreference(TextSizeField, "large");
    p := store.preferences;
    DecodeEncode(Snapshot(Dark, Cheerful, Large, "Hello there!"));
  }

  /** From the defaults, choose the energetic mood; the preview then shows its entry. */
  method EnergeticPreview() returns (p: Preferences, d: MoodContent.MoodData)
    ensures Valid(p) && p == Preferences("light", "energetic", "medium", "Hello there!")
    ensures MoodContent.Lookup(p.mood) == Some(d)
    ensures d.emoji == "\U{26A1}"
    ensures d.quote == "Your energy introduces you before you even speak!"
  {
    var store := new Store();
    store.UpdatePreference(MoodField, "energetic");
    p := store.preferences;
    var entry := MoodContent.Lookup(p.mood);
    assert MoodName(Energetic) == p.mood;
    d := entry.value;
  }
}
