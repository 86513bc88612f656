/** The settings page: the stored settings object, the defaults written into an
    empty store, the values the page's controls save, the speech-rate label, and
    the cache clearing that keeps the settings themselves. */
module Settings {
  import opened Base
  import opened Text

  const SettingsKey: string := "chefmate_settings"
  const AppPrefix: string := "chefmate_"

  /** A number as `parseInt` / `parseFloat` produce it: a value, or NaN. */
  datatype Number = Num(r: real) | NaN

  /** `JSON.stringify` writes NaN as `null`. */
  function NumberJson(x: Number): (j: Json)
    ensures x.NaN? <==> j == JNull
  {
    match x
    case Num(r) => JNum(r)
    case NaN => JNull
  }

  // ---------------------------------------------------------------------
  // The speech-rate label
  // ---------------------------------------------------------------------

  /** The label under the speech-rate slider for a numeric rate. */
  function SpeedLabel(rate: real): (shown: string)
    ensures shown == "慢" <==> rate < 0.8
    ensures shown == "快" <==> rate > 1.2
    ensures shown == "正常" <==> 0.8 <= rate <= 1.2
  {
    if rate < 0.8 then "慢" else if rate > 1.2 then "快" else "正常"
  }

  /** The same rule on a JavaScript number: both comparisons are false for NaN,
      which therefore keeps the initial label. */
  function NumberLabel(x: Number): (shown: string)
    ensures x.NaN? ==> shown == "正常"
    ensures x.Num? ==> shown == SpeedLabel(x.r)
  {
    match x
    case NaN => "正常"
    case Num(r) => SpeedLabel(r)
  }

  /** The slow, normal and fast labels follow the rate's order. */
  lemma SpeedLabelOrdered(a: real, b: real)
    requires a <= b
    ensures SpeedLabel(b) == "慢" ==> SpeedLabel(a) == "慢"
    ensures SpeedLabel(a) == "快" ==> SpeedLabel(b) == "快"
  {
  }

  /** `rate < 0.8` and `rate > 1.2` on a stored value, which both convert to a
      number: `null` and `false` compare as 0, `true` as 1, a string as the
      number its text denotes, an array as its comma-joined elements (so `[]`
      as 0, a one-element array as that element written out, a longer one as
      NaN), an object as NaN. */
  function StoredRate(v: Json): (x: Number)
    ensures v.JNum? ==> x == Num(v.n)
    ensures v.JNull? || v == JBool(false) || v == JArr([]) ==> x == Num(0.0)
    ensures v == JBool(true) ==> x == Num(1.0)
    ensures v.JStr? ==> x == StringToNumber(v.s)
    ensures v.JArr? && |v.items| == 1 && !v.items[0].JBool? ==> x == StoredRate(v.items[0])
    ensures v.JArr? && |v.items| == 1 && v.items[0].JBool? ==> x == NaN
    ensures v.JArr? && |v.items| > 1 ==> x == NaN
    ensures v.JObj? ==> x == NaN
  {
    match v
    case JNull => Num(0.0)
    case JBool(b) => Num(if b then 1.0 else 0.0)
    case JNum(n) => Num(n)
    case JStr(s) => StringToNumber(s)
    case JArr(items) =>
      // `String([e])` is `e` written out, `null` as the empty string; the
      // words `true` and `false` are not numbers.
      if items == [] then Num(0.0)
      else if |items| > 1 || items[0].JBool? then NaN
      else StoredRate(items[0])
    case JObj(_) => NaN
  }

  /** `10 ** e`. */
  function Pow10(e: nat): (p: nat)
    ensures p >= 1
  {
    if e == 0 then 1 else 10 * Pow10(e - 1)
  }

  /** The value of a string of digits in the given radix. */
  function RadixValue(s: string, radix: nat): nat
    requires forall i | 0 <= i < |s| :: IsHexDigit(s[i])
  {
    if s == [] then 0 else RadixValue(s[..|s| - 1], radix) * radix + HexDigitValue(s[|s| - 1])
  }

  /** The exponent part of a decimal literal: nothing (0), or `e`/`E`, an
      optional sign and at least one digit ending the text. */
  function Exponent(s: string): (e: Option<int>)
    ensures s == [] ==> e == Some(0)
    ensures s != [] && s[0] != 'e' && s[0] != 'E' ==> e.None?
  {
    if s == [] then Some(0)
    else if s[0] != 'e' && s[0] != 'E' then None
    else
      var u := s[1..];
      var digits := if u != [] && (u[0] == '-' || u[0] == '+') then u[1..] else u;
      if digits == [] || !AllDigits(digits) then None
      else Some(if u[0] == '-' then -(DigitsValue(digits) as int) else DigitsValue(digits))
  }

  /** An unsigned decimal literal: digits, a point and digits (either side may
      be empty, not both), then an optional exponent; NaN for anything else. */
  function DecimalValue(u: string): (x: Number) {
    var whole := LeadingRun(u, false);
    var afterWhole := u[|whole|..];
    var dot := afterWhole != [] && afterWhole[0] == '.';
    var frac := if dot then LeadingRun(afterWhole[1..], false) else [];
    var rest := if dot then afterWhole[1 + |frac|..] else afterWhole;
    assert AllDigits(whole) && AllDigits(frac);
    if whole == [] && frac == [] then NaN
    else
      match Exponent(rest)
      case None => NaN
      case Some(e) =>
        var m := DigitsValue(whole) as real + DigitsValue(frac) as real / Pow10(|frac|) as real;
        Num(if e >= 0 then m * Pow10(e) as real else m / Pow10(-e) as real)
  }

  /** A run of digits is a decimal literal denoting its value. */
  lemma DecimalOfDigits(u: string)
    requires u != [] && AllDigits(u)
    ensures DecimalValue(u) == Num(DigitsValue(u) as real)
  {
    var whole := LeadingRun(u, false);
    assert whole == u;
    assert u[|whole|..] == [];
  }

  /** `0x`, `0o` or `0b` in either case. */
  predicate HasRadixPrefix(t: string) {
    |t| >= 2 && t[0] == '0' && t[1] in "xXoObB"
  }

  /** An unsigned integer after a radix prefix, NaN without a digit or with
      a digit outside the radix. */
  function RadixNumber(t: string): (x: Number)
    requires HasRadixPrefix(t)
  {
    var radix := if t[1] in "xX" then 16 else if t[1] in "oO" then 8 else 2;
    var digits := t[2..];
    if digits != [] && forall i | 0 <= i < |digits| :: IsHexDigit(digits[i]) && HexDigitValue(digits[i]) < radix
    then Num(RadixValue(digits, radix) as real)
    else NaN
  }

  /** A decimal literal with an optional sign. */
  function SignedDecimal(t: string): (x: Number)
    requires t != []
  {
    var u := if t[0] == '-' || t[0] == '+' then t[1..] else t;
    match DecimalValue(u)
    case NaN => NaN
    case Num(r) => Num(if t[0] == '-' then -r else r)
  }

  /** JavaScript's conversion of a string to a number: surrounding whitespace
      is ignored, the empty text is 0, `0x`, `0o` and `0b` (either case) begin
      an unsigned hexadecimal, octal or binary integer, anything else must be
      a signed decimal literal; everything else is NaN. */
  function StringToNumber(s: string): (x: Number)
    ensures Trim(s, Js) == [] ==> x == Num(0.0)
  {
    var t := Trim(s, Js);
    if t == [] then Num(0.0)
    else if HasRadixPrefix(t) then RadixNumber(t)
    else SignedDecimal(t)
  }

  /** A run of digits, decimal or not, converts to its decimal value. */
  lemma DigitsToNumber(d: string)
    requires d != [] && AllDigits(d)
    ensures StringToNumber(d) == Num(DigitsValue(d) as real)
  {
    assert forall i | 0 <= i < |d| :: !IsSpace(d[i], Js);
    assert Trim(d, Js) == d;
    assert !HasRadixPrefix(d) by {
      if |d| >= 2 {
        assert IsAsciiDigit(d[1]);
      }
    }
    assert d[0] != '-' && d[0] != '+' by {
      assert IsAsciiDigit(d[0]);
    }
    DecimalOfDigits(d);
  }

  /** A stored rate written out in decimal digits compares as that number,
      alone or as an array's only element. */
  lemma StoredDigitsRate(n: nat)
    ensures StoredRate(JStr(NatToString(n))) == Num(n as real)
    ensures StoredRate(JArr([JStr(NatToString(n))])) == Num(n as real)
  {
    DigitsValueNatToString(n);
    DigitsToNumber(NatToString(n));
  }

  // Helper for DecimalFractionNumber: the digit run at the front of digits
  // followed by a non-digit is those digits.
  lemma {:induction false} LeadingDigits(w: string, rest: string)
    requires AllDigits(w) && (rest == [] || !IsAsciiDigit(rest[0]))
    ensures LeadingRun(w + rest, false) == w
  {
    if w == [] {
      assert w + rest == rest;
    } else {
      assert (w + rest)[1..] == w[1..] + rest;
      LeadingDigits(w[1..], rest);
    }
  }

  /** The value a text `w.f` of digits denotes. */
  function FractionValue(w: string, f: string): real
    requires AllDigits(w) && AllDigits(f)
  {
    DigitsValue(w) as real + DigitsValue(f) as real / Pow10(|f|) as real
  }

  // Helper for DecimalFractionNumber: the literal itself.
  lemma DecimalFraction(w: string, f: string)
    requires AllDigits(w) && AllDigits(f) && (w != [] || f != [])
    ensures DecimalValue(w + "." + f) == Num(FractionValue(w, f))
  {
    var u, tail := w + "." + f, "." + f;
    assert u == w + tail;
    LeadingDigits(w, tail);
    assert u[|w|..] == tail;
    assert tail[0] == '.' && tail[1..] == f + [];
    LeadingDigits(f, []);
    assert tail[1 + |f|..] == [];
    assert Exponent([]) == Some(0) && Pow10(0) == 1;
  }

  // Helper for DecimalFractionNumber: a text of digits and points.
  lemma FractionText(w: string, f: string)
    requires AllDigits(w) && AllDigits(f)
    ensures var u := w + "." + f; forall i | 0 <= i < |u| :: IsAsciiDigit(u[i]) || u[i] == '.'
  {
    var u := w + "." + f;
    forall i | 0 <= i < |u|
      ensures IsAsciiDigit(u[i]) || u[i] == '.'
    {
      if i < |w| {
        assert u[i] == w[i];
      } else if i > |w| {
        assert u[i] == f[i - |w| - 1];
      }
    }
  }

  // Helper for DecimalFractionNumber: a text without whitespace, radix
  // prefix or sign converts as a decimal literal.
  lemma UnsignedText(t: string)
    requires t != [] && forall i | 0 <= i < |t| :: IsAsciiDigit(t[i]) || t[i] == '.'
    ensures StringToNumber(t) == DecimalValue(t)
  {
    assert Trim(t, Js) == t by {
      assert forall i | 0 <= i < |t| :: !IsSpace(t[i], Js);
    }
    assert !HasRadixPrefix(t) by {
      if |t| >= 2 {
        assert IsAsciiDigit(t[1]) || t[1] == '.';
      }
    }
  }

  /** Digits, a point and digits (either side may be empty, not both) convert
      to the number they denote. */
  lemma DecimalFractionNumber(w: string, f: string)
    requires AllDigits(w) && AllDigits(f) && (w != [] || f != [])
    ensures StringToNumber(w + "." + f) == Num(FractionValue(w, f))
  {
    DecimalFraction(w, f);
    FractionText(w, f);
    UnsignedText(w + "." + f);
  }

  /** A stored text `w.f`, alone or as an array's only element, gets the
      label of the number it denotes. */
  lemma StoredFractionLabel(w: string, f: string)
    requires AllDigits(w) && AllDigits(f) && (w != [] || f != [])
    ensures NumberLabel(StoredRate(JStr(w + "." + f))) == SpeedLabel(FractionValue(w, f))
    ensures NumberLabel(StoredRate(JArr([JStr(w + "." + f)]))) == SpeedLabel(FractionValue(w, f))
  {
    DecimalFractionNumber(w, f);
  }

  /** A stored word is not a number, so it keeps the initial label. */
  lemma StoredWordRate()
    ensures StoredRate(JStr("fast")) == NaN
    ensures NumberLabel(StoredRate(JStr("fast"))) == "正常"
  {
    var s := "fast";
    assert forall i | 0 <= i < |s| :: !IsSpace(s[i], Js);
    assert Trim(s, Js) == s;
    assert LeadingRun(s, false) == [];
    assert s[0..] == s;
  }

  // ---------------------------------------------------------------------
  // Stored settings
  // ---------------------------------------------------------------------

  /** `getSettings`: the parsed `chefmate_settings` item, or `{}` when nothing is
      stored under that key. */
  function GetSettings(store: map<string, Json>): (s: Json)
    ensures SettingsKey !in store ==> s == JObj(map[])
    ensures SettingsKey in store ==> s == store[SettingsKey]
  {
    if SettingsKey in store then store[SettingsKey] else JObj(map[])
  }

  /** `Object.keys(v).length`, or `None` where `Object.keys` throws (`null`).
      A string has one key per UTF-16 code unit, an array one per element. */
  function KeyCount(v: Json): (n: Option<nat>)
    ensures n.None? <==> v.JNull?
    ensures n == Some(0) <==> v.JBool? || v.JNum? || v == JStr("") || v == JArr([]) || v == JObj(map[])
  {
    match v
    case JNull => None
    case JBool(_) => Some(0)
    case JNum(_) => Some(0)
    case JStr(s) => Some(Utf16Length(s))
    case JArr(items) => Some(|items|)
    case JObj(fields) => Some(|fields|)
  }

  /** The object `setDefaultValues` writes into an empty store. */
  const DefaultSettings: Json := JObj(map[
    "volume" := JNum(70.0),
    "speechRate" := JNum(1.0),
    "pushNotification" := JBool(true),
    "soundAlert" := JBool(true)
  ])

  /** The four settings every save writes. */
  const SettingNames: set<string> := {"volume", "speechRate", "pushNotification", "soundAlert"}

  /** The controls `saveSettings` reads; an absent control is `None`. The speech
      slider is given as the number `parseFloat` reads from its value. */
  datatype Controls = Controls(
    volumeSlider: Option<string>,
    speedSlider: Option<Number>,
    pushNotification: Option<bool>,
    soundAlert: Option<bool>)

  /** `parseInt(volumeSlider.value)` as a number. */
  function VolumeNumber(value: string): (x: Number)
    ensures ParseInt(value).Some? ==> x == Num(ParseInt(value).value as real)
    ensures ParseInt(value).None? ==> x == NaN
  {
    match ParseInt(value)
    case Some(n) => Num(n as real)
    case None => NaN
  }

  /** The object `saveSettings` writes: each control's value, or the default for
      a control that is missing from the page. */
  function SavedSettings(c: Controls): (s: Json)
    ensures s.JObj? && s.fields.Keys == SettingNames
    ensures s.fields["volume"] == if c.volumeSlider.Some? then NumberJson(VolumeNumber(c.volumeSlider.value)) else JNum(70.0)
    ensures s.fields["speechRate"] == if c.speedSlider.Some? then NumberJson(c.speedSlider.value) else JNum(1.0)
    ensures s.fields["pushNotification"] == JBool(c.pushNotification.GetOr(true))
    ensures s.fields["soundAlert"] == JBool(c.soundAlert.GetOr(true))
  {
    JObj(map[
      "volume" := if c.volumeSlider.Some? then NumberJson(VolumeNumber(c.volumeSlider.value)) else JNum(70.0),
      "speechRate" := if c.speedSlider.Some? then NumberJson(c.speedSlider.value) else JNum(1.0),
      "pushNotification" := JBool(c.pushNotification.GetOr(true)),
      "soundAlert" := JBool(c.soundAlert.GetOr(true))
    ])
  }

  /** A page without any of the four controls saves exactly the defaults. */
  lemma NoControlsSavesDefaults()
    ensures SavedSettings(Controls(None, None, None, None)) == DefaultSettings
  {
    var s := SavedSettings(Controls(None, None, None, None));
    assert s.fields.Keys == DefaultSettings.fields.Keys;
  }

  /** Defaults and saved settings both have four keys, so once either is stored
      `setDefaultValues` leaves the store alone. */
  lemma StoredSettingsAreNotReplaced(c: Controls)
    ensures KeyCount(DefaultSettings) == Some(4)
    ensures KeyCount(SavedSettings(c)) == Some(4)
  {
    assert DefaultSettings.fields.Keys == SettingNames;
    assert |SettingNames| == 4;
  }

  // ---------------------------------------------------------------------
  // Loading into the controls
  // ---------------------------------------------------------------------

  /** `settings.name` on the parsed settings, `None` where it is `undefined`. */
  function Prop(settings: Json, name: string): (p: Option<Json>)
    ensures p.Some? <==> settings.JObj? && name in settings.fields
    ensures p.Some? ==> p.value == settings.fields[name]
  {
    if settings.JObj? && name in settings.fields then Some(settings.fields[name]) else None
  }

  /** What the settings page shows: the two sliders' values, the speech label
      and the two switches. */
  datatype View = View(volume: Json, speechRate: Json, speedText: string, pushChecked: bool, soundChecked: bool)

  /** `loadSettings` on a non-null settings value: each control takes the stored
      value that is defined and keeps its own otherwise. */
  function ApplySettings(settings: Json, view: View): (v: View)
    ensures Prop(settings, "volume").None? ==> v.volume == view.volume
    ensures Prop(settings, "volume").Some? ==> v.volume == Prop(settings, "volume").value
    ensures Prop(settings, "speechRate").None? ==> v.speechRate == view.speechRate && v.speedText == view.speedText
    ensures Prop(settings, "speechRate").Some? ==>
              v.speechRate == Prop(settings, "speechRate").value
              && v.speedText == NumberLabel(StoredRate(Prop(settings, "speechRate").value))
    ensures Prop(settings, "pushNotification").None? ==> v.pushChecked == view.pushChecked
    ensures Prop(settings, "pushNotification").Some? ==> v.pushChecked == JsTruthy(Prop(settings, "pushNotification").value)
    ensures Prop(settings, "soundAlert").None? ==> v.soundChecked == view.soundChecked
    ensures Prop(settings, "soundAlert").Some? ==> v.soundChecked == JsTruthy(Prop(settings, "soundAlert").value)
  {
    var volume := Prop(settings, "volume");
    var rate := Prop(settings, "speechRate");
    var push := Prop(settings, "pushNotification");
    var sound := Prop(settings, "soundAlert");
    View(
      if volume.Some? then volume.value else view.volume,
      if rate.Some? then rate.value else view.speechRate,
      if rate.Some? then NumberLabel(StoredRate(rate.value)) else view.speedText,
      if push.Some? then JsTruthy(push.value) else view.pushChecked,
      if sound.Some? then JsTruthy(sound.value) else view.soundChecked)
  }

  /** The label the speech slider's `input` handler shows for the rate it reads. */
  function InputSpeedLabel(parsed: Number): (shown: string)
    ensures parsed.Num? ==> shown == SpeedLabel(parsed.r)
  {
    NumberLabel(parsed)
  }

  /** The rule is the same on input and on load: after a save, reloading shows
      the label the slider showed while it was moved. */
  lemma ReloadShowsInputLabel(c: Controls, view: View, r: real)
    requires c.speedSlider == Some(Num(r))
    ensures ApplySettings(SavedSettings(c), view).speedText == InputSpeedLabel(Num(r))
  {
  }

  /** A rate `parseFloat` cannot read labels 正常 on input, is saved as `null`
      and labels 慢 on the next load. */
  lemma UnreadableRateReloadsSlow(c: Controls, view: View)
    requires c.speedSlider == Some(NaN)
    ensures InputSpeedLabel(NaN) == "正常"
    ensures ApplySettings(SavedSettings(c), view).speedText == "慢"
  {
  }

  // ---------------------------------------------------------------------
  // Clearing the cache
  // ---------------------------------------------------------------------

  /** The keys `clearCache` removes: the application's own, except its settings. */
  predicate Removable(key: string) {
    key != "" && StartsWith(key, AppPrefix) && key != SettingsKey
  }

  /** The store after clearing: every removable key is gone. */
  function Cleared(store: map<string, Json>): map<string, Json> {
    map k | k in store && !Removable(k) :: store[k]
  }

  /** Exactly the removable keys go; every other key keeps its value. */
  lemma ClearedMeans(store: map<string, Json>, k: string)
    ensures k in Cleared(store) <==> k in store && !Removable(k)
    ensures k in Cleared(store) ==> Cleared(store)[k] == store[k]
  {
  }

  /** The settings (and everything outside the `chefmate_` prefix) survive. */
  lemma ClearingKeepsSettings(store: map<string, Json>)
    ensures SettingsKey in store ==> SettingsKey in Cleared(store) && GetSettings(Cleared(store)) == GetSettings(store)
    ensures forall k | k in store && !StartsWith(k, AppPrefix) :: k in Cleared(store)
  {
    assert !Removable(SettingsKey);
  }

  /** A second clearing removes nothing more. */
  lemma ClearingTwiceIsClearingOnce(store: map<string, Json>)
    ensures Cleared(Cleared(store)) == Cleared(store)
  {
  }

  // ---------------------------------------------------------------------
  // The page
  // ---------------------------------------------------------------------

  /** What `setDefaultValues` did: threw (the stored value is `null`), found
      settings and kept them, or wrote the defaults and reloaded them. */
  datatype Outcome = Threw | Kept | WroteDefaults

  /** `localStorage` as the settings page sees it, and the page's controls. */
  class SettingsPage {
    var store: map<string, Json>
    var view: View

    constructor(store0: map<string, Json>, view0: View)
      ensures store == store0 && view == view0
    {
      store := store0;
      view := view0;
    }

    /** `loadSettings`: reading a property of a stored `null` throws, and the
        controls stay as they were. */
    method LoadSettings() returns (ok: bool)
      modifies this
      ensures ok <==> GetSettings(store) != JNull
      ensures ok ==> view == ApplySettings(GetSettings(old(store)), old(view))
      ensures !ok ==> view == old(view)
      ensures store == old(store)
    {
      var settings := GetSettings(store);
      if settings == JNull {
        return false;
      }
      view := ApplySettings(settings, view);
      return true;
    }

    /** `setDefaultValues`: the defaults are written, and loaded, only when the
        stored settings have no keys at all. */
    method SetDefaultValues() returns (outcome: Outcome)
      modifies this
      ensures outcome == Threw <==> GetSettings(old(store)) == JNull
      ensures outcome == WroteDefaults <==> KeyCount(GetSettings(old(store))) == Some(0)
      ensures outcome == WroteDefaults ==>
                store == old(store)[SettingsKey := DefaultSettings]
                && view == ApplySettings(DefaultSettings, old(view))
      ensures outcome != WroteDefaults ==> store == old(store) && view == old(view)
    {
      var settings := GetSettings(store);
      var count := KeyCount(settings);
      if count.None? {
        return Threw;
      }
      if count.value != 0 {
        return Kept;
      }
      store := store[SettingsKey := DefaultSettings];
      var ok := LoadSettings();
      return WroteDefaults;
    }

    /** `initializeSettings`: load what is stored, then fill in the defaults. */
    method InitializeSettings() returns (outcome: Outcome)
      modifies this
      ensures outcome == Threw <==> GetSettings(old(store)) == JNull
      ensures outcome == WroteDefaults <==> KeyCount(GetSettings(old(store))) == Some(0)
      ensures outcome == WroteDefaults ==> store == old(store)[SettingsKey := DefaultSettings]
      ensures outcome != WroteDefaults ==> store == old(store)
      ensures outcome == Kept ==> view == ApplySettings(GetSettings(old(store)), old(view))
      ensures outcome == WroteDefaults ==> view == ApplySettings(DefaultSettings, old(view))
      ensures outcome == Threw ==> view == old(view)
    {
      var ok := LoadSettings();
      if !ok {
        return Threw;
      }
      outcome := SetDefaultValues();
    }

    /** `saveSettings`: the controls' values replace the stored settings. */
    method SaveSettings(c: Controls)
      modifies this
      ensures store == old(store)[SettingsKey := SavedSettings(c)]
      ensures view == old(view)
    {
      store := store[SettingsKey := SavedSettings(c)];
    }

    /** `clearCache`: once confirmed, the removable keys are collected (in the
        store's own enumeration order, which the result does not depend on) and
        then removed one by one. */
    method ClearCache(confirmed: bool) returns (keysToRemove: seq<string>)
      modifies this
      ensures confirmed ==> store == Cleared(old(store))
      ensures !confirmed ==> store == old(store) && keysToRemove == []
      ensures forall k :: k in keysToRemove <==> confirmed && k in old(store) && Removable(k)
      ensures view == old(view)
    {
      keysToRemove := [];
      if !confirmed {
        return;
      }
      var unvisited := store.Keys;
      while unvisited != {}
        invariant store == old(store) && view == old(view)
        invariant unvisited <= store.Keys
        invariant forall k :: k in keysToRemove <==> k in store.Keys - unvisited && Removable(k)
        decreases unvisited
      {
        var key :| key in unvisited;
        if Removable(key) {
          keysToRemove := keysToRemove + [key];
        }
        unvisited := unvisited - {key};
      }
      var j := 0;
      while j < |keysToRemove|
        invariant 0 <= j <= |keysToRemove|
        invariant store == map k | k in old(store) && k !in keysToRemove[..j] :: old(store)[k]
        invariant view == old(view)
      {
        store := store - {keysToRemove[j]};
        assert keysToRemove[..j + 1] == keysToRemove[..j] + [keysToRemove[j]];
        j := j + 1;
      }
      assert keysToRemove[..j] == keysToRemove;
    }
  }

  /** Clearing the cache never makes `setDefaultValues` overwrite saved settings. */
  lemma ClearingKeepsSavedSettings(store: map<string, Json>, c: Controls)
    ensures KeyCount(GetSettings(Cleared(store[SettingsKey := SavedSettings(c)]))) == Some(4)
  {
    ClearingKeepsSettings(store[SettingsKey := SavedSettings(c)]);
    StoredSettingsAreNotReplaced(c);
  }
}
