# Preference store and mood table, modelled in Dafny

This project models the logic of a small preferences UI. A user picks a theme, a mood and a text size, and types a greeting. A preview then shows those choices together with an emoji and a quote chosen by mood. Two parts hold that behaviour:

- **The preference store.** It holds one preference record per session and starts it from fixed defaults (`light`, `cheerful`, `medium`, `"Hello there!"`). Its only mutation is `updatePreference(key, value)`. That mutation replaces the record with a copy in which the named field holds the value. It is modelled as the class `PreferenceStore.Store`, and the pure transition behind it is `PreferenceStore.Update`.
- **The mood content table.** This is a constant, total map from the four moods to an emoji, a quote and two colour strings (`MoodContent.Content`). The preview reads it by the string the record holds (`MoodContent.Lookup`).

The update entry point takes `value: string` for every field. So the enumerated domains of `theme`, `mood` and `textSize` are not enforced by the operation. They hold only because every caller passes one of the values the settings view offers. For that reason the record is modelled as it exists at run time, with four string fields (`PreferenceTypes.Preferences`):

- `Valid` is the domain invariant.
- `Snapshot` is the record as its declared type describes it.
- `Encode` and `Decode` relate the two views.
- `Setting` is the update contract written as a tagged variant, one case per field.
- `SettingsOptions` lists the values the settings view offers. It proves that every call the view makes keeps the record valid.

The record's declared type restricts `theme`, `mood` and `textSize` to closed sets of names, but the update's signature (src/types/preferences.ts:12, src/hooks/usePreferences.ts:15) takes any string. `PreferenceStore.UpdateKeepsValidIff` proves that, from a valid record, an update stays valid exactly when its value is in the field's domain.

Modules: `Wrappers` (Option), `PreferenceTypes` (src/types/preferences.ts), `PreferenceStore` (src/hooks/usePreferences.ts), `MoodContent` (src/constants/moodContent.ts), `SettingsOptions` (the option values in src/components/SettingsPage.tsx), `Scenarios` (two user sessions run against the store object).

## Model

| member | source | states |
|---|---|---|
| PreferenceTypes.ParseTheme | src/types/preferences.ts:3 | reading a string as a theme succeeds exactly on the three theme names and returns the theme with that name |
| PreferenceTypes.ParseMood | src/types/preferences.ts:4 | reading a string as a mood succeeds exactly on the four mood names and returns the mood with that name |
| PreferenceTypes.ParseTextSize | src/types/preferences.ts:5 | reading a string as a text size succeeds exactly on the four size names and returns the size with that name |
| PreferenceTypes.NamesAreDistinct | src/types/preferences.ts:3-5 | no two values of an enumerated field share a name, so a valid field holds exactly one value |
| PreferenceTypes.ValidIsFieldwise | src/types/preferences.ts:2-7 | a record is valid exactly when every field is in its own domain; the greeting is unconstrained, and the empty string is allowed |
| PreferenceTypes.FieldwiseEqual | src/types/preferences.ts:2-7 | a record is determined by the values of its four fields |
| PreferenceTypes.Encode | src/types/preferences.ts:2-7 | a typed record written as strings is valid and each field reads back as the typed value |
| PreferenceTypes.Decode | src/types/preferences.ts:2-7 | reading a record as its declared type succeeds exactly on valid records, and the result encodes back to the same record |
| PreferenceTypes.DecodeEncode | src/types/preferences.ts:2-7 | encoding a typed record and then decoding it gives the typed record back |
| PreferenceTypes.AsCall | src/types/preferences.ts:12 | every typed setting stands for a call whose value is in the named field's domain |
| PreferenceTypes.InDomainCallsAreSettings | src/types/preferences.ts:12 | every in-domain (field, string) call is the image of some typed setting |
| PreferenceTypes.AsCallInjective | src/types/preferences.ts:12 | distinct typed settings stand for distinct calls |
| PreferenceStore.Defaults | src/hooks/usePreferences.ts:8-13 | the initial record is valid and reads as light, cheerful, medium, "Hello there!" |
| PreferenceStore.Update | src/hooks/usePreferences.ts:15-19 | after an update the named field holds the value, and every other field keeps its previous value |
| PreferenceStore.UpdateIdempotent | src/hooks/usePreferences.ts:16-19 | writing a field's current value leaves the record unchanged |
| PreferenceStore.LastWriteWins | src/hooks/usePreferences.ts:16-19 | two writes to the same field equal the second write alone |
| PreferenceStore.UpdatesCommute | src/hooks/usePreferences.ts:16-19 | writes to two different fields give the same record in either order |
| PreferenceStore.UpdateKeepsValidIff | src/hooks/usePreferences.ts:15-19 | from a valid record, the update gives a valid record if and only if the value is in the field's domain; the update checks nothing itself |
| PreferenceStore.SettingUpdateIsTyped | src/hooks/usePreferences.ts:15-19 | an update issued as a typed setting decodes to the typed record with that one field replaced |
| PreferenceStore.ApplyAllSnoc | src/hooks/usePreferences.ts:16 | each update applies to the record the previous update produced |
| PreferenceStore.ApplyAllGet | src/hooks/usePreferences.ts:16-19 | after any sequence of updates, each field holds the value of the last update naming it, or its initial value if no update names it |
| PreferenceStore.ApplyAllKeepsValid | src/hooks/usePreferences.ts:15-19 | a sequence of in-domain updates keeps a valid record valid |
| PreferenceStore.Store.constructor | src/hooks/usePreferences.ts:8-13 | a new store holds the defaults and an empty history |
| PreferenceStore.Store.UpdatePreference | src/hooks/usePreferences.ts:15-20 | the held record is replaced by its update, the record stays the defaults after the call history, and validity is kept exactly when the value is in domain |
| MoodContent.Content | src/constants/moodContent.ts:10-35 | the table is total: every mood has an entry, whose emoji is a single code point and whose quote is non-empty |
| MoodContent.Lookup | src/constants/moodContent.ts:10-36 | the table has an entry for each of the four mood names and no other key; the entry for a mood's name is that mood's content |
| MoodContent.EmojiCharacter | src/constants/moodContent.ts:11-35 | each mood's emoji is one Unicode code point: cheerful 😊, calm 😌, energetic ⚡, cozy 🏠 |
| MoodContent.EmojisAreDistinct | src/constants/moodContent.ts:11-35 | different moods have different emojis |
| MoodContent.QuotesAreDistinct | src/constants/moodContent.ts:13-32 | different moods have different quotes |
| MoodContent.PreviewLookupSucceeds | src/components/PreviewPage.tsx:7 | the preview's lookup of a valid record's mood always finds that mood's entry |
| SettingsOptions.ChoicesAreTheDomains | src/components/SettingsPage.tsx:19-143 | the option lists of the settings view are exactly the theme, mood and text-size domains |
| SettingsOptions.SettingsCallsAreInDomain | src/components/SettingsPage.tsx:38-184 | every update the settings view issues has a value in the named field's domain |
| SettingsOptions.SettingsSessionStaysValid | src/components/SettingsPage.tsx:38-184 | any session driven by the settings view, starting from the defaults, ends in a valid record |
| SettingsOptions.MoodEmojisAgree | src/components/SettingsPage.tsx:67-91 | the emoji shown beside each mood option is the emoji the mood table holds for that mood |
| Scenarios.DarkThenLarge | src/hooks/usePreferences.ts:8-19 | from the defaults, setting theme to dark and then text size to large gives dark, cheerful, large, "Hello there!" |
| Scenarios.EnergeticPreview | src/components/PreviewPage.tsx:6-14 | from the defaults, setting mood to energetic leaves exactly light, energetic, medium, "Hello there!", and the preview's lookup of that mood gives the entry with emoji ⚡ and the energetic quote |

## Left out

- Rendering, JSX markup and styling (the `theme-…` and `text-…` class names, and the colour strings): these are presentation. The colours are kept as opaque strings.
- Routing and navigation, including the root path redirecting to the settings view: this is configuration of the routing library, and its behaviour is not part of this model.
- Context propagation and re-render notification (`useOutletContext`, `useState` scheduling): the store is a plain object with one field, and a view reads that field.
- `MoodContent.Lookup` returns `None` for a key outside the four names. The program indexes an ordinary object literal instead. For most such keys it gets `undefined`, and the preview fails when it reads `.emoji`. For a key naming an inherited object member (`toString`, `constructor`, `__proto__`), it gets that member, and `.emoji` is `undefined` without any failure. Neither outcome is modelled.
- Strings are sequences of Unicode code points. JavaScript strings are UTF-16, which differs only in lengths. Three places state lengths, all in code points: `MoodContent.Content` and `MoodContent.EmojiCharacter` say each emoji is one element long, and the proof that the quotes differ compares lengths. In JavaScript, 😊, 😌 and 🏠 each have length 2. The quotes are ASCII, so their lengths agree.
