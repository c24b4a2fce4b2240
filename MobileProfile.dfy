/**
 * The profile screen (`MobileProfile`): four on/off settings, the label each
 * setting key is shown under, and the three-digit EchoNode number in the
 * heading.
 */
module MobileProfile {
  import JsText
  import MobileApp

  datatype SettingKey = HolographicSynthesis | EthicalForesight | NetworkSharing | AdaptiveLearning

  /** The property name of each key in the settings object. */
  function KeyName(k: SettingKey): string {
    match k
    case HolographicSynthesis => "holographicSynthesis"
    case EthicalForesight => "ethicalForesight"
    case NetworkSharing => "networkSharing"
    case AdaptiveLearning => "adaptiveLearning"
  }

  datatype EchoNodeSettings = EchoNodeSettings(
    holographicSynthesis: bool,
    ethicalForesight: bool,
    networkSharing: bool,
    adaptiveLearning: bool)

  const InitialSettings := EchoNodeSettings(true, true, true, true)

  function Get(s: EchoNodeSettings, k: SettingKey): bool {
    match k
    case HolographicSynthesis => s.holographicSynthesis
    case EthicalForesight => s.ethicalForesight
    case NetworkSharing => s.networkSharing
    case AdaptiveLearning => s.adaptiveLearning
  }

  /** `{ ...prev, [key]: checked }`: `key` set to `checked`, the other keys as they were. */
  function With(s: EchoNodeSettings, k: SettingKey, checked: bool): (r: EchoNodeSettings)
    ensures Get(r, k) == checked
    ensures forall other :: other != k ==> Get(r, other) == Get(s, other)
  {
    match k
    case HolographicSynthesis => s.(holographicSynthesis := checked)
    case EthicalForesight => s.(ethicalForesight := checked)
    case NetworkSharing => s.(networkSharing := checked)
    case AdaptiveLearning => s.(adaptiveLearning := checked)
  }

  /** Every setting starts switched on. */
  lemma InitiallyAllOn(k: SettingKey)
    ensures Get(InitialSettings, k)
  {
  }

  /** Setting a key to the value it already has changes nothing. */
  lemma {:induction false} WithSameValue(s: EchoNodeSettings, k: SettingKey)
    ensures With(s, k, Get(s, k)) == s
  {
    match k
    case HolographicSynthesis =>
    case EthicalForesight =>
    case NetworkSharing =>
    case AdaptiveLearning =>
  }

  predicate IsUpper(c: char) {
    'A' <= c <= 'Z'
  }

  /** Number of `A`..`Z` letters in `s`. */
  function UpperCount(s: string): nat {
    if s == [] then 0 else (if IsUpper(s[0]) then 1 else 0) + UpperCount(s[1..])
  }

  /**
   * `replace(/([A-Z])/g, ' $1')`: a space in front of every `A`..`Z`
   * letter, all characters kept in order; one character longer per capital.
   */
  function SpaceBeforeCapitals(s: string): (r: string)
    ensures |r| == |s| + UpperCount(s)
  {
    if s == [] then []
    else (if IsUpper(s[0]) then [' ', s[0]] else [s[0]]) + SpaceBeforeCapitals(s[1..])
  }

  /**
   * The first and last characters of `SpaceBeforeCapitals(s)` are those of
   * `s`, the first one behind a space when it is a capital.
   */
  lemma {:induction false} SpaceBeforeCapitalsEdges(s: string)
    requires s != []
    ensures var r := SpaceBeforeCapitals(s);
      && (IsUpper(s[0]) ==> r[0] == ' ' && r[1] == s[0])
      && (!IsUpper(s[0]) ==> r[0] == s[0])
      && r[|r| - 1] == s[|s| - 1]
  {
    if |s| > 1 {
      SpaceBeforeCapitalsEdges(s[1..]);
    }
  }

  /** Every capital of `r` directly follows a space. */
  predicate CapitalsFollowSpaces(r: string) {
    forall i :: 0 <= i < |r| && IsUpper(r[i]) ==> i > 0 && r[i - 1] == ' '
  }

  /** Every capital of `SpaceBeforeCapitals(s)` directly follows a space. */
  lemma {:induction false} SpaceBeforeCapitalsShape(s: string)
    ensures CapitalsFollowSpaces(SpaceBeforeCapitals(s))
  {
    if s != [] {
      var r := SpaceBeforeCapitals(s);
      var rest := SpaceBeforeCapitals(s[1..]);
      var head := if IsUpper(s[0]) then [' ', s[0]] else [s[0]];
      SpaceBeforeCapitalsShape(s[1..]);
      assert r == head + rest;
      forall i | 0 <= i < |r| && IsUpper(r[i]) ensures i > 0 && r[i - 1] == ' ' {
        if i < |head| {
          assert r[i] == head[i];
          if i > 0 { assert r[i - 1] == head[i - 1]; }
        } else {
          assert r[i] == rest[i - |head|];
          if i > |head| { assert r[i - 1] == rest[i - 1 - |head|]; }
        }
      }
    }
  }

  /** Undoes `SpaceBeforeCapitals`: drops each space that directly precedes a capital. */
  function DropSpaceBeforeCapitals(t: string): string {
    if |t| >= 2 && t[0] == ' ' && IsUpper(t[1]) then [t[1]] + DropSpaceBeforeCapitals(t[2..])
    else if t == [] then []
    else [t[0]] + DropSpaceBeforeCapitals(t[1..])
  }

  /** The spaces inserted before capitals are the only characters added. */
  lemma {:induction false} SpaceBeforeCapitalsRoundTrip(s: string)
    ensures DropSpaceBeforeCapitals(SpaceBeforeCapitals(s)) == s
  {
    if s != [] {
      var t := SpaceBeforeCapitals(s);
      var rest := SpaceBeforeCapitals(s[1..]);
      SpaceBeforeCapitalsRoundTrip(s[1..]);
      if IsUpper(s[0]) {
        assert t == [' ', s[0]] + rest;
        assert t[2..] == rest;
        assert DropSpaceBeforeCapitals(t) == [s[0]] + DropSpaceBeforeCapitals(rest);
      } else {
        assert t == [s[0]] + rest;
        assert t[1..] == rest;
        if rest != [] {
          SpaceBeforeCapitalsEdges(s[1..]);
          assert !IsUpper(rest[0]);
        }
        assert DropSpaceBeforeCapitals(t) == [s[0]] + DropSpaceBeforeCapitals(rest);
      }
      assert s == [s[0]] + s[1..];
    }
  }

  /** A string without capitals passes through unchanged. */
  lemma {:induction false} NoCapitalsUnchanged(s: string)
    requires forall i :: 0 <= i < |s| ==> !IsUpper(s[i])
    ensures SpaceBeforeCapitals(s) == s
  {
    if s != [] {
      NoCapitalsUnchanged(s[1..]);
      assert s == [s[0]] + s[1..];
    }
  }

  /** The text a setting is shown under: `key.replace(/([A-Z])/g, ' $1').trim()`. */
  function Label(key: string): (r: string)
    ensures r != [] ==> !JsText.IsWhitespace(r[0]) && !JsText.IsWhitespace(r[|r| - 1])
  {
    JsText.Trim(SpaceBeforeCapitals(key))
  }

  /**
   * For a key with no whitespace in it the trim only removes the space put
   * in front of a leading capital, so such a key never gets a leading space.
   */
  lemma LabelOfIdentifier(key: string)
    requires forall i :: 0 <= i < |key| ==> !JsText.IsWhitespace(key[i])
    ensures Label(key) ==
      if key != [] && IsUpper(key[0]) then SpaceBeforeCapitals(key)[1..] else SpaceBeforeCapitals(key)
  {
    if key != [] {
      var t := SpaceBeforeCapitals(key);
      SpaceBeforeCapitalsEdges(key);
      assert !JsText.IsWhitespace(key[0]) && !JsText.IsWhitespace(key[|key| - 1]);
      if IsUpper(key[0]) {
        JsText.TrimLeadingSpace(t);
      } else {
        JsText.TrimUnpadded(t);
      }
    }
  }

  /** A key with no capitals and no whitespace is its own label. */
  lemma LowercaseLabel(key: string)
    requires forall i :: 0 <= i < |key| ==> !IsUpper(key[i]) && !JsText.IsWhitespace(key[i])
    ensures Label(key) == key
  {
    NoCapitalsUnchanged(key);
    LabelOfIdentifier(key);
  }

  predicate IsLetter(c: char) {
    'a' <= c <= 'z' || 'A' <= c <= 'Z'
  }

  /**
   * Each setting is shown under its property name with a space put before
   * every capital: the names are letters only and start lower-case, so the
   * trim removes nothing.
   */
  lemma SettingLabel(k: SettingKey)
    ensures Label(KeyName(k)) == SpaceBeforeCapitals(KeyName(k))
  {
    var key := KeyName(k);
    assert !IsUpper(key[0]);
    forall i | 0 <= i < |key| ensures !JsText.IsWhitespace(key[i]) {
      assert IsLetter(key[i]);
    }
    LabelOfIdentifier(key);
  }

  /**
   * `Math.floor(Math.random() * 1000).toString().padStart(3, '0')` for the
   * draw `draw`: three decimal digits that read back as the draw.
   */
  function EchoNodeId(draw: nat): (r: string)
    requires draw < 1000
    ensures |r| == 3 && JsText.AllDigits(r) && JsText.DecimalValue(r) == draw
  {
    var digits := JsText.Decimal(draw);
    var zeros := seq(3 - |digits|, _ => '0');
    JsText.DecimalRoundTrip(draw);
    JsText.LeadingZerosIgnored(3 - |digits|, digits);
    assert JsText.PadStart(digits, 3, '0') == zeros + digits by {
      if |digits| == 3 { assert zeros + digits == digits; }
    }
    JsText.PadStart(digits, 3, '0')
  }

  /** The profile screen's back button. */
  const BackTarget: MobileApp.MobileScreen := MobileApp.Home

  /** The profile screen's state. */
  class Profile {
    var echoNodeSettings: EchoNodeSettings

    constructor ()
      ensures echoNodeSettings == InitialSettings
    {
      echoNodeSettings := InitialSettings;
    }

    /** A setting's switch `onCheckedChange`. */
    method SetSetting(k: SettingKey, checked: bool)
      modifies this
      ensures echoNodeSettings == With(old(echoNodeSettings), k, checked)
      ensures Get(echoNodeSettings, k) == checked
      ensures forall other :: other != k ==> Get(echoNodeSettings, other) == Get(old(echoNodeSettings), other)
    {
      echoNodeSettings := With(echoNodeSettings, k, checked);
    }
  }
}
