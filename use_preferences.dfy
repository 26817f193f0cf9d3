/**
 * The preference store: the session's single preference record, the defaults
 * it starts from, and its one mutation, the field update.
 */
module PreferenceStore {
  import opened Wrappers
  import opened PreferenceTypes

  /**
   * The record a session starts from: valid, and read as light, cheerful,
   * medium and the stock greeting.
   */
  function Defaults(): (d: Preferences)
    ensures Valid(d)
    ensures Decode(d) == Some(Snapshot(Light, Cheerful, Medium, "Hello there!"))
  {
    DecodeEncode(Snapshot(Light, Cheerful, Medium, "Hello there!"));
    Preferences("light", "cheerful", "medium", "Hello there!")
  }

  /**
   * The transition of one update: a copy of the previous record in which the
   * named field holds the given value. The value is not checked.
   */
  function Update(p: Preferences, k: Field, v: string): (r: Preferences)
    ensures Get(r, k) == v
    ensures forall j :: j != k ==> Get(r, j) == Get(p, j)
  {
    match k
    case ThemeField => p.(theme := v)
    case MoodField => p.(mood := v)
    case TextSizeField => p.(textSize := v)
    case GreetingField => p.(greeting := v)
  }

  /** Writing a field's current value back changes nothing. */
  lemma UpdateIdempotent(p: Preferences, k: Field)
    ensures Update(p, k, Get(p, k)) == p
  {
    FieldwiseEqual(Update(p, k, Get(p, k)), p);
  }

  /** Of two writes to the same field, the second one decides. */
  lemma LastWriteWins(p: Preferences, k: Field, a: string, b: string)
    ensures Update(Update(p, k, a), k, b) == Update(p, k, b)
  {
    FieldwiseEqual(Update(Update(p, k, a), k, b), Update(p, k, b));
  }

  /** Writes to two different fields can be made in either order. */
  lemma UpdatesCommute(p: Preferences, j: Field, k: Field, a: string, b: string)
    requires j != k
    ensures Update(Update(p, j, a), k, b) == Update(Update(p, k, b), j, a)
  {
    FieldwiseEqual(Update(Update(p, j, a), k, b), Update(Update(p, k, b), j, a));
  }

  /**
   * From a valid record, an update gives a valid record exactly when its value
   * lies in the field's domain: the update itself enforces nothing.
   */
  lemma UpdateKeepsValidIff(p: Preferences, k: Field, v: string)
    requires Valid(p)
    ensures Valid(Update(p, k, v)) <==> InDomain(k, v)
  {
    ValidIsFieldwise(p);
    ValidIsFieldwise(Update(p, k, v));
  }

  /** The typed record a setting produces. */
  function ApplySetting(s: Snapshot, x: Setting): Snapshot {
    match x
    case SetTheme(t) => s.(theme := t)
    case SetMood(m) => s.(mood := m)
    case SetTextSize(z) => s.(textSize := z)
    case SetGreeting(g) => s.(greeting := g)
  }

  /** An update issued as a typed setting is the typed update, read through the record. */
  lemma SettingUpdateIsTyped(s: Snapshot, x: Setting)
    ensures Decode(Update(Encode(s), AsCall(x).field, AsCall(x).value)) == Some(ApplySetting(s, x))
  {
    DecodeEncode(ApplySetting(s, x));
    assert Update(Encode(s), AsCall(x).field, AsCall(x).value) == Encode(ApplySetting(s, x));
  }

  /** A session's updates in order, each applied to the record the one before produced. */
  function ApplyAll(p: Preferences, calls: seq<Call>): Preferences
    decreases |calls|
  {
    if calls == [] then p
    else ApplyAll(Update(p, calls[0].field, calls[0].value), calls[1..])
  }

  /** The value the last call naming `k` wrote, or `initial` when no call names it. */
  function LastWrite(calls: seq<Call>, k: Field, initial: string): string
    decreases |calls|
  {
    if calls == [] then initial
    else if calls[|calls| - 1].field == k then calls[|calls| - 1].value
    else LastWrite(calls[..|calls| - 1], k, initial)
  }

  lemma {:induction false} LastWriteFront(calls: seq<Call>, k: Field, initial: string)
    requires calls != []
    ensures LastWrite(calls, k, initial)
         == LastWrite(calls[1..], k, if calls[0].field == k then calls[0].value else initial)
    decreases |calls|
  {
    if |calls| > 1 {
      var init' := if calls[0].field == k then calls[0].value else initial;
      var front := calls[..|calls| - 1];
      LastWriteFront(front, k, initial);
      assert front[1..] == calls[1..][..|calls[1..]| - 1];
    }
  }

  /** Applying one more call to a session's result is the longer session. */
  lemma {:induction false} ApplyAllSnoc(p: Preferences, calls: seq<Call>, c: Call)
    ensures ApplyAll(p, calls + [c]) == Update(ApplyAll(p, calls), c.field, c.value)
    decreases |calls|
  {
    if calls != [] {
      assert (calls + [c])[1..] == calls[1..] + [c];
      ApplyAllSnoc(Update(p, calls[0].field, calls[0].value), calls[1..], c);
    }
  }

  /** After a session every field holds what the last call naming it wrote. */
  lemma {:induction false} ApplyAllGet(p: Preferences, calls: seq<Call>, k: Field)
    ensures Get(ApplyAll(p, calls), k) == LastWrite(calls, k, Get(p, k))
    decreases |calls|
  {
    if calls != [] {
      var q := Update(p, calls[0].field, calls[0].value);
      ApplyAllGet(q, calls[1..], k);
      LastWriteFront(calls, k, Get(p, k));
    }
  }

  /** A session of in-domain calls keeps a valid record valid. */
  lemma {:induction false} ApplyAllKeepsValid(p: Preferences, calls: seq<Call>)
    requires Valid(p)
    requires forall i :: 0 <= i < |calls| ==> InDomain(calls[i].field, calls[i].value)
    ensures Valid(ApplyAll(p, calls))
    decreases |calls|
  {
    if calls != [] {
      UpdateKeepsValidIff(p, calls[0].field, calls[0].value);
      ApplyAllKeepsValid(Update(p, calls[0].field, calls[0].value), calls[1..]);
    }
  }

  /**
   * The store a shell owns for a session. `history` records the calls made so
   * far; the held record is always the defaults after that history.
   */
  class Store {
    var preferences: Preferences
    ghost var history: seq<Call>

    ghost predicate Consistent()
      reads this
    {
      preferences == ApplyAll(Defaults(), history)
    }

    constructor ()
      ensures Consistent() && history == []
      ensures preferences == Defaults() && Valid(preferences)
    {
      preferences := Defaults();
      history := [];
    }

    /** Replaces the held record by its update; the value is not checked. */
    method UpdatePreference(key: Field, value: string)
      requires Consistent()
      modifies this
      ensures Consistent() && history == old(history) + [Call(key, value)]
      ensures preferences == Update(old(preferences), key, value)
      ensures old(Valid(preferences)) ==> (Valid(preferences) <==> InDomain(key, value))
    {
      ApplyAllSnoc(Defaults(), history, Call(key, value));
      if Valid(preferences) {
        UpdateKeepsValidIff(preferences, key, value);
      }
      preferences := Update(preferences, key, value);
      history := history + [Call(key, value)];
    }
  }
}
