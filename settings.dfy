/**
 * AppSettings: typed properties over the user-defaults domain, each with a
 * fallback used when its key is unset (or holds an unusable value), and the
 * trigger-key defaults of InputMethodConstants.
 */
module Settings {
  import opened Wrappers

  /** Swift `Int` (64-bit). */
  type Int64 = x: int | -0x8000_0000_0000_0000 <= x < 0x8000_0000_0000_0000
  /** Swift `UInt` (64-bit), the raw value of a modifier-flag set. */
  type UInt = x: int | 0 <= x < 0x1_0000_0000_0000_0000
  /** Swift `UInt16`, the type of a key code. */
  type UInt16 = x: int | 0 <= x < 0x1_0000

  /**
   * A value held in the defaults domain, tagged with the kind of setter that
   * wrote it.
   */
  datatype Value = Str(s: string) | Boolean(b: bool) | Double(d: real) | Integer(i: Int64)

  /** The defaults domain: key to stored value. */
  type Defaults = map<string, Value>

  const LlmEndpointKey: string := "llmEndpoint"
  const LlmApiKeyKey: string := "llmApiKey"
  const LlmModelKey: string := "llmModel"
  const CorrectionEnabledKey: string := "isLLMCorrectionEnabled"
  const SilenceDurationKey: string := "silenceDuration"
  const CustomModelFolderKey: string := "customModelFolder"
  const TriggerKeyCodeKey: string := "triggerKeyCode"
  const TriggerModifierFlagsKey: string := "triggerModifierFlags"

  const DefaultLlmEndpoint: string := "https://api.openai.com"
  const DefaultLlmModel: string := "gpt-4o-mini"
  const DefaultSilenceDuration: real := 1.5
  /** InputMethodConstants.defaultTriggerKeyCode: the '/' key. */
  const DefaultTriggerKeyCode: UInt16 := 44
  /** InputMethodConstants.defaultTriggerModifierFlag: NSEvent.ModifierFlags.control (bit 18). */
  const ControlFlag: UInt := 0x4_0000

  // The typed readers of the defaults domain. Each yields the stored value
  // when it was written by a setter of the same kind, and the reader's
  // "absent" answer otherwise (nil, false, 0).

  function StringFor(d: Defaults, key: string): Option<string> {
    if key in d && d[key].Str? then Some(d[key].s) else None
  }

  function BoolFor(d: Defaults, key: string): bool {
    key in d && d[key].Boolean? && d[key].b
  }

  function DoubleFor(d: Defaults, key: string): real {
    if key in d && d[key].Double? then d[key].d else 0.0
  }

  function IntegerFor(d: Defaults, key: string): Int64 {
    if key in d && d[key].Integer? then d[key].i else 0
  }

  function LlmEndpoint(d: Defaults): (endpoint: string)
    ensures StringFor(d, LlmEndpointKey).Some? ==> endpoint == StringFor(d, LlmEndpointKey).value
    ensures StringFor(d, LlmEndpointKey).None? ==> endpoint == DefaultLlmEndpoint
  {
    StringFor(d, LlmEndpointKey).GetOr(DefaultLlmEndpoint)
  }

  function LlmApiKey(d: Defaults): (apiKey: string)
    ensures StringFor(d, LlmApiKeyKey).Some? ==> apiKey == StringFor(d, LlmApiKeyKey).value
    ensures StringFor(d, LlmApiKeyKey).None? ==> apiKey == ""
  {
    StringFor(d, LlmApiKeyKey).GetOr("")
  }

  function LlmModel(d: Defaults): (model: string)
    ensures StringFor(d, LlmModelKey).Some? ==> model == StringFor(d, LlmModelKey).value
    ensures StringFor(d, LlmModelKey).None? ==> model == DefaultLlmModel
  {
    StringFor(d, LlmModelKey).GetOr(DefaultLlmModel)
  }

  /** Correction is on unless the key holds a value that reads as false. */
  function IsLLMCorrectionEnabled(d: Defaults): (enabled: bool)
    ensures CorrectionEnabledKey !in d ==> enabled
    ensures CorrectionEnabledKey in d && d[CorrectionEnabledKey].Boolean? ==> enabled == d[CorrectionEnabledKey].b
  {
    if CorrectionEnabledKey !in d then true else BoolFor(d, CorrectionEnabledKey)
  }

  /** The silence duration in seconds; never zero or negative. */
  function SilenceDuration(d: Defaults): (seconds: real)
    ensures seconds > 0.0
    ensures DoubleFor(d, SilenceDurationKey) > 0.0 ==> seconds == DoubleFor(d, SilenceDurationKey)
    ensures DoubleFor(d, SilenceDurationKey) <= 0.0 ==> seconds == DefaultSilenceDuration
  {
    var val := DoubleFor(d, SilenceDurationKey);
    if val > 0.0 then val else DefaultSilenceDuration
  }

  /** The custom model folder; an empty stored path reads as unset. */
  function CustomModelFolder(d: Defaults): (folder: Option<string>)
    ensures folder != Some("")
    ensures folder.Some? <==> StringFor(d, CustomModelFolderKey).Some? && StringFor(d, CustomModelFolderKey).value != ""
    ensures folder.Some? ==> StringFor(d, CustomModelFolderKey) == folder
  {
    var val := StringFor(d, CustomModelFolderKey);
    if val.None? || val.value == "" then None else val
  }

  /** `UInt16(val)` traps unless the stored key code fits in 16 bits. */
  predicate KeyCodeFits(d: Defaults) {
    IntegerFor(d, TriggerKeyCodeKey) < 0x1_0000
  }

  function TriggerKeyCode(d: Defaults): (keyCode: UInt16)
    requires KeyCodeFits(d)
    ensures keyCode > 0
    ensures IntegerFor(d, TriggerKeyCodeKey) > 0 ==> keyCode == IntegerFor(d, TriggerKeyCodeKey)
    ensures IntegerFor(d, TriggerKeyCodeKey) <= 0 ==> keyCode == DefaultTriggerKeyCode
  {
    var val := IntegerFor(d, TriggerKeyCodeKey);
    if val > 0 then val else DefaultTriggerKeyCode
  }

  function TriggerModifierFlags(d: Defaults): (flags: UInt)
    ensures flags > 0
    ensures IntegerFor(d, TriggerModifierFlagsKey) > 0 ==> flags == IntegerFor(d, TriggerModifierFlagsKey)
    ensures IntegerFor(d, TriggerModifierFlagsKey) <= 0 ==> flags == ControlFlag
  {
    var val := IntegerFor(d, TriggerModifierFlagsKey);
    if val > 0 then val else ControlFlag
  }

  /** The eight keys are pairwise different (their lengths already differ). */
  lemma KeysDistinct()
    ensures |LlmEndpointKey| == 11 && |LlmApiKeyKey| == 9 && |LlmModelKey| == 8
    ensures |CorrectionEnabledKey| == 22 && |SilenceDurationKey| == 15
    ensures |CustomModelFolderKey| == 17 && |TriggerKeyCodeKey| == 14 && |TriggerModifierFlagsKey| == 20
    ensures LlmEndpointKey != LlmApiKeyKey && LlmEndpointKey != LlmModelKey && LlmEndpointKey != CorrectionEnabledKey && LlmEndpointKey != SilenceDurationKey && LlmEndpointKey != CustomModelFolderKey && LlmEndpointKey != TriggerKeyCodeKey && LlmEndpointKey != TriggerModifierFlagsKey
    ensures LlmApiKeyKey != LlmModelKey && LlmApiKeyKey != CorrectionEnabledKey && LlmApiKeyKey != SilenceDurationKey && LlmApiKeyKey != CustomModelFolderKey && LlmApiKeyKey != TriggerKeyCodeKey && LlmApiKeyKey != TriggerModifierFlagsKey
    ensures LlmModelKey != CorrectionEnabledKey && LlmModelKey != SilenceDurationKey && LlmModelKey != CustomModelFolderKey && LlmModelKey != TriggerKeyCodeKey && LlmModelKey != TriggerModifierFlagsKey
    ensures CorrectionEnabledKey != SilenceDurationKey && CorrectionEnabledKey != CustomModelFolderKey && CorrectionEnabledKey != TriggerKeyCodeKey && CorrectionEnabledKey != TriggerModifierFlagsKey
    ensures SilenceDurationKey != CustomModelFolderKey && SilenceDurationKey != TriggerKeyCodeKey && SilenceDurationKey != TriggerModifierFlagsKey
    ensures CustomModelFolderKey != TriggerKeyCodeKey && CustomModelFolderKey != TriggerModifierFlagsKey
    ensures TriggerKeyCodeKey != TriggerModifierFlagsKey
  {
  }

  /** Everything a reader of AppSettings can observe. */
  datatype SettingsView = SettingsView(
    llmEndpoint: string,
    llmApiKey: string,
    llmModel: string,
    isLLMCorrectionEnabled: bool,
    silenceDuration: real,
    customModelFolder: Option<string>,
    triggerKeyCode: UInt16,
    triggerModifierFlags: UInt)

  function View(d: Defaults): SettingsView
    requires KeyCodeFits(d)
  {
    SettingsView(LlmEndpoint(d), LlmApiKey(d), LlmModel(d), IsLLMCorrectionEnabled(d),
                 SilenceDuration(d), CustomModelFolder(d), TriggerKeyCode(d), TriggerModifierFlags(d))
  }

  /**
   * The settings object: each setter writes its own key of the defaults
   * domain, and every property read afterwards is that of the new domain.
   * The domain may hold a key code that does not fit in 16 bits; only reading
   * `triggerKeyCode` traps on it, so the View is stated for domains where it fits.
   */
  class AppSettings {
    var defaults: Defaults

    constructor(initial: Defaults)
      ensures defaults == initial
    {
      defaults := initial;
    }

    method SetLlmEndpoint(newValue: string)
      modifies this
      ensures defaults == old(defaults)[LlmEndpointKey := Str(newValue)]
      ensures KeyCodeFits(defaults) == old(KeyCodeFits(defaults))
      ensures old(KeyCodeFits(defaults)) ==> View(defaults) == old(View(defaults)).(llmEndpoint := newValue)
    {
      KeysDistinct();
      defaults := defaults[LlmEndpointKey := Str(newValue)];
    }

    method SetLlmApiKey(newValue: string)
      modifies this
      ensures defaults == old(defaults)[LlmApiKeyKey := Str(newValue)]
      ensures KeyCodeFits(defaults) == old(KeyCodeFits(defaults))
      ensures old(KeyCodeFits(defaults)) ==> View(defaults) == old(View(defaults)).(llmApiKey := newValue)
    {
      KeysDistinct();
      defaults := defaults[LlmApiKeyKey := Str(newValue)];
    }

    method SetLlmModel(newValue: string)
      modifies this
      ensures defaults == old(defaults)[LlmModelKey := Str(newValue)]
      ensures KeyCodeFits(defaults) == old(KeyCodeFits(defaults))
      ensures old(KeyCodeFits(defaults)) ==> View(defaults) == old(View(defaults)).(llmModel := newValue)
    {
      KeysDistinct();
      defaults := defaults[LlmModelKey := Str(newValue)];
    }

    method SetLLMCorrectionEnabled(newValue: bool)
      modifies this
      ensures defaults == old(defaults)[CorrectionEnabledKey := Boolean(newValue)]
      ensures KeyCodeFits(defaults) == old(KeyCodeFits(defaults))
      ensures old(KeyCodeFits(defaults)) ==> View(defaults) == old(View(defaults)).(isLLMCorrectionEnabled := newValue)
    {
      KeysDistinct();
      defaults := defaults[CorrectionEnabledKey := Boolean(newValue)];
    }

    /** A duration that is not positive is stored, but reads back as the default. */
    method SetSilenceDuration(newValue: real)
      modifies this
      ensures defaults == old(defaults)[SilenceDurationKey := Double(newValue)]
      ensures KeyCodeFits(defaults) == old(KeyCodeFits(defaults))
      ensures old(KeyCodeFits(defaults)) ==>
        View(defaults) == old(View(defaults)).(silenceDuration := if newValue > 0.0 then newValue else DefaultSilenceDuration)
    {
      KeysDistinct();
      defaults := defaults[SilenceDurationKey := Double(newValue)];
    }

    /** Setting nil removes the key; an empty path reads back as nil. */
    method SetCustomModelFolder(newValue: Option<string>)
      modifies this
      ensures newValue.None? ==> defaults == old(defaults) - {CustomModelFolderKey}
      ensures newValue.Some? ==> defaults == old(defaults)[CustomModelFolderKey := Str(newValue.value)]
      ensures KeyCodeFits(defaults) == old(KeyCodeFits(defaults))
      ensures old(KeyCodeFits(defaults)) ==>
        View(defaults) == old(View(defaults)).(customModelFolder := if newValue == Some("") then None else newValue)
    {
      KeysDistinct();
      match newValue
      case None => defaults := defaults - {CustomModelFolderKey};
      case Some(path) => defaults := defaults[CustomModelFolderKey := Str(path)];
    }

    /**
     * Key code 0 is stored, but reads back as the default key code. Any
     * 16-bit code fits, so afterwards the key code can be read again.
     */
    method SetTriggerKeyCode(newValue: UInt16)
      modifies this
      ensures defaults == old(defaults)[TriggerKeyCodeKey := Integer(newValue)]
      ensures KeyCodeFits(defaults)
      ensures old(KeyCodeFits(defaults)) ==>
        View(defaults) == old(View(defaults)).(triggerKeyCode := if newValue > 0 then newValue else DefaultTriggerKeyCode)
    {
      KeysDistinct();
      defaults := defaults[TriggerKeyCodeKey := Integer(newValue)];
    }

    /** `Int(newValue)` traps on flag words with the top bit set; 0 reads back as Control. */
    method SetTriggerModifierFlags(newValue: UInt)
      requires newValue < 0x8000_0000_0000_0000
      modifies this
      ensures defaults == old(defaults)[TriggerModifierFlagsKey := Integer(newValue)]
      ensures KeyCodeFits(defaults) == old(KeyCodeFits(defaults))
      ensures old(KeyCodeFits(defaults)) ==>
        View(defaults) == old(View(defaults)).(triggerModifierFlags := if newValue > 0 then newValue else ControlFlag)
    {
      KeysDistinct();
      defaults := defaults[TriggerModifierFlagsKey := Integer(newValue)];
    }
  }
}
