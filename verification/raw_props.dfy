/**
 * The raw property bag a props constructor receives from JavaScript, and the
 * three-way conversion rule every field follows: a key that is absent keeps
 * the value it had, a key sent as null/undefined resets the field to its
 * static default, a key sent with a payload is parsed.
 */
module RawProps {
  import opened Wrappers

  /** An untyped value sent from JavaScript. */
  datatype Dyn =
    | DBool(b: bool)
    | DNumber(x: real)
    | DString(s: string)
    | DArray(items: seq<Dyn>)
    | DObject(members: map<string, Dyn>)

  /** A value that is present in the bag; no payload means null or undefined was sent. */
  datatype RawValue = RawValue(payload: Option<Dyn>) {
    predicate HasValue() { payload.Some? }
  }

  /**
   * Property names, as the distinct tags their precomputed hashes stand for.
   * The first thirty-two are parsed by this layer, `Color` is declared by the
   * layer but never read, the nine padding keys are only checked for
   * presence, and `Other` is every name this layer does not declare (the
   * base layer's names among them). A declared name always hashes to its
   * own tag, so `Other` stands only for undeclared names: `Other` applied to
   * a declared name such as "autoComplete" denotes no key of the source.
   */
  datatype PropKey =
    | AutoComplete | ReturnKeyLabel | NumberOfLines | DisableFullscreenUI
    | TextBreakStrategy | InlineImageLeft | InlineImagePadding | ImportantForAutofill
    | ShowSoftInputOnFocus | AutoCorrect | AllowFontScaling | MaxFontSizeMultiplier
    | KeyboardType | ReturnKeyType | SecureTextEntry | Value
    | SelectTextOnFocus | CaretHidden | ContextMenuHidden | TextShadowColor
    | TextShadowRadius | TextDecorationLine | FontStyle | TextShadowOffset
    | LineHeight | TextTransform | LetterSpacing | FontSize
    | TextAlign | IncludeFontPadding | FontWeight | FontFamily
    | Color
    | Padding | PaddingHorizontal | PaddingVertical | PaddingLeft | PaddingTop
    | PaddingRight | PaddingBottom | PaddingStart | PaddingEnd
    | Other(name: string)
  {
    /** One of the nine spacing keys whose presence this layer records. */
    predicate IsPadding() {
      this in {Padding, PaddingHorizontal, PaddingVertical, PaddingLeft, PaddingTop,
               PaddingRight, PaddingBottom, PaddingStart, PaddingEnd}
    }

    /** A key that names a field of this layer. */
    predicate IsField() { !Other? }

    /** A key whose field is parsed from the raw value. */
    predicate IsParsed() { IsField() && this != Color && !IsPadding() }

    /** The property name the key was hashed from. */
    function Name(): string {
      match this
      case AutoComplete => "autoComplete"
      case ReturnKeyLabel => "returnKeyLabel"
      case NumberOfLines => "numberOfLines"
      case DisableFullscreenUI => "disableFullscreenUI"
      case TextBreakStrategy => "textBreakStrategy"
      case InlineImageLeft => "inlineImageLeft"
      case InlineImagePadding => "inlineImagePadding"
      case ImportantForAutofill => "importantForAutofill"
      case ShowSoftInputOnFocus => "showSoftInputOnFocus"
      case AutoCorrect => "autoCorrect"
      case AllowFontScaling => "allowFontScaling"
      case MaxFontSizeMultiplier => "maxFontSizeMultiplier"
      case KeyboardType => "keyboardType"
      case ReturnKeyType => "returnKeyType"
      case SecureTextEntry => "secureTextEntry"
      case Value => "value"
      case SelectTextOnFocus => "selectTextOnFocus"
      case CaretHidden => "caretHidden"
      case ContextMenuHidden => "contextMenuHidden"
      case TextShadowColor => "textShadowColor"
      case TextShadowRadius => "textShadowRadius"
      case TextDecorationLine => "textDecorationLine"
      case FontStyle => "fontStyle"
      case TextShadowOffset => "textShadowOffset"
      case LineHeight => "lineHeight"
      case TextTransform => "textTransform"
      case LetterSpacing => "letterSpacing"
      case FontSize => "fontSize"
      case TextAlign => "textAlign"
      case IncludeFontPadding => "includeFontPadding"
      case FontWeight => "fontWeight"
      case FontFamily => "fontFamily"
      case Color => "color"
      case Padding => "padding"
      case PaddingHorizontal => "paddingHorizontal"
      case PaddingVertical => "paddingVertical"
      case PaddingLeft => "paddingLeft"
      case PaddingTop => "paddingTop"
      case PaddingRight => "paddingRight"
      case PaddingBottom => "paddingBottom"
      case PaddingStart => "paddingStart"
      case PaddingEnd => "paddingEnd"
      case Other(n) => n
    }
  }

  /** The bag: a key that is not in the map was not part of the update. */
  type RawPropBag = map<PropKey, RawValue>

  /** `rawProps.at(name)`: nothing when the key was not sent. */
  function Lookup(raw: RawPropBag, key: PropKey): Option<RawValue> {
    if key in raw then Some(raw[key]) else None
  }

  /**
   * The setter-side conversion of a present raw value: null/undefined gives
   * `defaultValue`, a payload is parsed, and a payload that does not parse
   * gives `defaultValue` too.
   */
  function FromRawValue<T>(value: RawValue, defaultValue: T, parse: Dyn -> Option<T>): T {
    match value.payload
    case None => defaultValue
    case Some(d) => parse(d).GetOr(defaultValue)
  }

  /**
   * The constructor-side conversion `convertRawProp(raw, key, sourceValue,
   * defaultValue)`: an absent key keeps `sourceValue`, a present key is
   * converted as the setter converts it.
   */
  function ConvertRawProp<T>(raw: RawPropBag, key: PropKey, sourceValue: T, defaultValue: T,
                             parse: Dyn -> Option<T>): T {
    match Lookup(raw, key)
    case None => sourceValue
    case Some(v) => FromRawValue(v, defaultValue, parse)
  }

  /**
   * `hasValue(rawProps, defaultValue, name)`: whether the key was sent with a
   * payload, falling back to `defaultValue` when it was not sent at all.
   */
  function HasValue(raw: RawPropBag, defaultValue: bool, key: PropKey): (r: bool)
  {
    var rawValue := Lookup(raw, key);
    if rawValue.None? then defaultValue
    else if rawValue.value.HasValue() then true
    else false
  }

  /**
   * The three-way rule of the constructor-side conversion: an absent key
   * keeps the source value, null gives the static default, a payload is
   * parsed (a payload that does not parse gives the static default).
   */
  lemma ConvertRawPropThreeWay<T>(raw: RawPropBag, key: PropKey, sourceValue: T, defaultValue: T,
                                  parse: Dyn -> Option<T>)
    ensures key !in raw ==> ConvertRawProp(raw, key, sourceValue, defaultValue, parse) == sourceValue
    ensures key in raw && !raw[key].HasValue()
            ==> ConvertRawProp(raw, key, sourceValue, defaultValue, parse) == defaultValue
    ensures key in raw && raw[key].HasValue()
            ==> ConvertRawProp(raw, key, sourceValue, defaultValue, parse)
                == parse(raw[key].payload.value).GetOr(defaultValue)
  {
  }

  /**
   * `hasValue` returns the default exactly when the key is absent, and
   * otherwise whether a payload was sent, whatever the default.
   */
  lemma HasValueCases(raw: RawPropBag, defaultValue: bool, key: PropKey)
    ensures key !in raw ==> HasValue(raw, defaultValue, key) == defaultValue
    ensures key in raw ==> (HasValue(raw, defaultValue, key) <==> raw[key].HasValue())
  {
  }

  /**
   * `hasValue` is the three-way rule with a parser that reads every payload
   * as `true` and the static default `false`: an absent key keeps the old
   * flag, null resets it, any payload sets it.
   */
  lemma HasValueIsThreeWayRule(raw: RawPropBag, defaultValue: bool, key: PropKey)
    ensures HasValue(raw, defaultValue, key)
         == ConvertRawProp(raw, key, defaultValue, false, (d: Dyn) => Some(true))
  {
  }

  /**
   * Sending a value for one key changes the conversion of that key only: it
   * becomes the setter-side conversion of the value sent, and every other
   * key converts as before.
   */
  lemma ConvertRawPropUpdate<T>(raw: RawPropBag, k: PropKey, v: RawValue, j: PropKey,
                                sourceValue: T, defaultValue: T, parse: Dyn -> Option<T>)
    ensures ConvertRawProp(raw[k := v], j, sourceValue, defaultValue, parse)
         == if j == k then FromRawValue(v, defaultValue, parse)
            else ConvertRawProp(raw, j, sourceValue, defaultValue, parse)
  {
  }

  /** The same for the presence check. */
  lemma HasValueUpdate(raw: RawPropBag, k: PropKey, v: RawValue, j: PropKey, defaultValue: bool)
    ensures HasValue(raw[k := v], defaultValue, j)
         == if j == k then v.HasValue() else HasValue(raw, defaultValue, j)
  {
  }
}
