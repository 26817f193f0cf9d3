/**
 * The preference record and the shape of its update contract.
 *
 * At run time a preference record is a plain object whose four fields are
 * strings. Its declared type restricts `theme`, `mood` and `textSize` to closed
 * sets of names, but the update entry point takes any string as the value, so
 * the restriction is an invariant (`Valid`) that callers keep, not something
 * the record's representation guarantees. The typed view (`Snapshot`) is the
 * record the declared type describes; `Encode` and `Decode` relate the two.
 */
module PreferenceTypes {
  import opened Wrappers

  datatype Theme = Light | Dark | Colorful
  datatype Mood = Cheerful | Calm | Energetic | Cozy
  datatype TextSize = Small | Medium | Large | XLarge

  /** The names the declared type allows for each enumerated field. */
  function ThemeName(t: Theme): string {
    match t
    case Light => "light"
    case Dark => "dark"
    case Colorful => "colorful"
  }

  function MoodName(m: Mood): string {
    match m
    case Cheerful => "cheerful"
    case Calm => "calm"
    case Energetic => "energetic"
    case Cozy => "cozy"
  }

  function TextSizeName(s: TextSize): string {
    match s
    case Small => "small"
    case Medium => "medium"
    case Large => "large"
    case XLarge => "xlarge"
  }

  /** Reads a theme name back; any other string is not a theme. */
  function ParseTheme(s: string): (r: Option<Theme>)
    ensures r.Some? ==> ThemeName(r.value) == s
    ensures r.None? ==> forall t :: ThemeName(t) != s
  {
    if s == "light" then Some(Light)
    else if s == "dark" then Some(Dark)
    else if s == "colorful" then Some(Colorful)
    else None
  }

  function ParseMood(s: string): (r: Option<Mood>)
    ensures r.Some? ==> MoodName(r.value) == s
    ensures r.None? ==> forall m :: MoodName(m) != s
  {
    if s == "cheerful" then Some(Cheerful)
    else if s == "calm" then Some(Calm)
    else if s == "energetic" then Some(Energetic)
    else if s == "cozy" then Some(Cozy)
    else None
  }

  function ParseTextSize(s: string): (r: Option<TextSize>)
    ensures r.Some? ==> TextSizeName(r.value) == s
    ensures r.None? ==> forall z :: TextSizeName(z) != s
  {
    if s == "small" then Some(Small)
    else if s == "medium" then Some(Medium)
    else if s == "large" then Some(Large)
    else if s == "xlarge" then Some(XLarge)
    else None
  }

  /** Each enumerated value has its own name, so a valid field holds exactly one value. */
  lemma NamesAreDistinct(t1: Theme, t2: Theme, m1: Mood, m2: Mood, z1: TextSize, z2: TextSize)
    ensures ThemeName(t1) == ThemeName(t2) ==> t1 == t2
    ensures MoodName(m1) == MoodName(m2) ==> m1 == m2
    ensures TextSizeName(z1) == TextSizeName(z2) ==> z1 == z2
  {
    var _ := ParseTheme(ThemeName(t1));
    var _ := ParseMood(MoodName(m1));
    var _ := ParseTextSize(TextSizeName(z1));
  }

  predicate IsTheme(s: string) { ParseTheme(s).Some? }
  predicate IsMood(s: string) { ParseMood(s).Some? }
  predicate IsTextSize(s: string) { ParseTextSize(s).Some? }

  /** The preference record as the program holds it. */
  datatype Preferences = Preferences(theme: string, mood: string, textSize: string, greeting: string)

  /** The domain invariant: every enumerated field holds one of its names; the greeting is free text. */
  predicate Valid(p: Preferences) {
    IsTheme(p.theme) && IsMood(p.mood) && IsTextSize(p.textSize)
  }

  /** The field names of a preference record (`keyof Preferences`). */
  datatype Field = ThemeField | MoodField | TextSizeField | GreetingField

  /** The value of the named field (`prefs[key]`). */
  function Get(p: Preferences, k: Field): string {
    match k
    case ThemeField => p.theme
    case MoodField => p.mood
    case TextSizeField => p.textSize
    case GreetingField => p.greeting
  }

  /** Whether a string belongs to the named field's declared domain. */
  predicate InDomain(k: Field, v: string) {
    match k
    case ThemeField => IsTheme(v)
    case MoodField => IsMood(v)
    case TextSizeField => IsTextSize(v)
    case GreetingField => true
  }

  /** A record is valid exactly when each of its fields is in that field's domain. */
  lemma ValidIsFieldwise(p: Preferences)
    ensures Valid(p) <==> forall k :: InDomain(k, Get(p, k))
  {
    if forall k :: InDomain(k, Get(p, k)) {
      assert InDomain(ThemeField, Get(p, ThemeField));
      assert InDomain(MoodField, Get(p, MoodField));
      assert InDomain(TextSizeField, Get(p, TextSizeField));
    }
  }

  /** Two records that agree on every field are the same record. */
  lemma FieldwiseEqual(p: Preferences, q: Preferences)
    requires forall k :: Get(p, k) == Get(q, k)
    ensures p == q
  {
    assert Get(p, ThemeField) == Get(q, ThemeField);
    assert Get(p, MoodField) == Get(q, MoodField);
    assert Get(p, TextSizeField) == Get(q, TextSizeField);
    assert Get(p, GreetingField) == Get(q, GreetingField);
  }

  /**
   * One call of the update contract: any field name with any string value,
   * as the context hands it to the views.
   */
  datatype Call = Call(field: Field, value: string)

  /** The record as its declared type describes it. */
  datatype Snapshot = Snapshot(theme: Theme, mood: Mood, textSize: TextSize, greeting: string)

  function Encode(s: Snapshot): (p: Preferences)
    ensures Valid(p)
    ensures ParseTheme(p.theme) == Some(s.theme)
    ensures ParseMood(p.mood) == Some(s.mood)
    ensures ParseTextSize(p.textSize) == Some(s.textSize)
    ensures p.greeting == s.greeting
  {
    NamesAreDistinct(s.theme, s.theme, s.mood, s.mood, s.textSize, s.textSize);
    Preferences(ThemeName(s.theme), MoodName(s.mood), TextSizeName(s.textSize), s.greeting)
  }

  /** Reads a record as its declared type; fails exactly on records outside the domain. */
  function Decode(p: Preferences): (r: Option<Snapshot>)
    ensures r.Some? <==> Valid(p)
    ensures r.Some? ==> Encode(r.value) == p
  {
    match (ParseTheme(p.theme), ParseMood(p.mood), ParseTextSize(p.textSize))
    case (Some(t), Some(m), Some(z)) => Some(Snapshot(t, m, z, p.greeting))
    case _ => None
  }

  /** Encoding then decoding a typed record gives it back. */
  lemma DecodeEncode(s: Snapshot)
    ensures Decode(Encode(s)) == Some(s)
  {
  }

  /**
   * The update contract written as a tagged variant, one case per field,
   * each carrying a value of that field's type.
   */
  datatype Setting =
    | SetTheme(theme: Theme)
    | SetMood(mood: Mood)
    | SetTextSize(textSize: TextSize)
    | SetGreeting(greeting: string)

  /** The untyped call a typed setting stands for. */
  function AsCall(s: Setting): (c: Call)
    ensures InDomain(c.field, c.value)
  {
    match s
    case SetTheme(t) => Call(ThemeField, ThemeName(t))
    case SetMood(m) => Call(MoodField, MoodName(m))
    case SetTextSize(z) => Call(TextSizeField, TextSizeName(z))
    case SetGreeting(g) => Call(GreetingField, g)
  }

  /** Every in-domain call is the image of exactly one typed setting. */
  lemma InDomainCallsAreSettings(c: Call)
    requires InDomain(c.field, c.value)
    ensures exists s :: AsCall(s) == c
  {
    match c.field
    case ThemeField => assert AsCall(SetTheme(ParseTheme(c.value).value)) == c;
    case MoodField => assert AsCall(SetMood(ParseMood(c.value).value)) == c;
    case TextSizeField => assert AsCall(SetTextSize(ParseTextSize(c.value).value)) == c;
    case GreetingField => assert AsCall(SetGreeting(c.value)) == c;
  }

  /** Distinct settings stand for distinct calls. */
  lemma AsCallInjective(s1: Setting, s2: Setting)
    ensures AsCall(s1) == AsCall(s2) ==> s1 == s2
  {
    match (s1, s2)
    case (SetTheme(a), SetTheme(b)) => NamesAreDistinct(a, b, Calm, Calm, Small, Small);
    case (SetMood(a), SetMood(b)) => NamesAreDistinct(Light, Light, a, b, Small, Small);
    case (SetTextSize(a), SetTextSize(b)) => NamesAreDistinct(Light, Light, Calm, Calm, a, b);
    case _ =>
  }
}
