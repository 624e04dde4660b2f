/**
 * The Android text input property record and its constructor.
 *
 * A record is this layer's own fields on top of the base text input layer
 * (`BaseTextInputProps`, whose constructor and setter are not part of this
 * model and are passed in as functions). The constructor builds the new
 * record from the previous one and a raw bag in one of two modes chosen by
 * the iterator-setter feature flag: with the flag on, the fields are copied
 * and filled in afterwards by the setter; with it off, every field is
 * converted from the bag here.
 */
module TextInputProps {
  import opened Wrappers
  import opened RawProps
  import opened Conversions

  datatype ParagraphAttributes = ParagraphAttributes(
    maximumNumberOfLines: int,
    ellipsizeMode: EllipsizeMode,
    textBreakStrategy: TextBreakStrategy,
    adjustsFontSizeToFit: bool,
    minimumFontSize: real,
    maximumFontSize: real,
    includeFontPadding: bool,
    hyphenationFrequency: HyphenationFrequency,
    textAlignVertical: Option<TextAlignVertical>)

  /** The base text input layer, as far as the diff of this layer reads it. */
  datatype BaseTextInputProps = BaseTextInputProps(
    paragraphAttributes: ParagraphAttributes,
    defaultValue: string,
    placeholder: string,
    placeholderTextColor: SharedColor,
    cursorColor: SharedColor,
    selectionColor: SharedColor,
    selectionHandleColor: SharedColor,
    underlineColorAndroid: SharedColor,
    maxLength: int,
    text: string,
    mostRecentEventCount: int,
    autoFocus: bool,
    autoCapitalize: string,
    editable: bool,
    readOnly: bool,
    submitBehavior: SubmitBehavior,
    multiline: bool,
    disableKeyboardShortcuts: bool,
    acceptDragAndDropTypes: Option<seq<string>>)

  /** The fields this layer owns. */
  datatype AndroidTextInputFields = AndroidTextInputFields(
    autoComplete: string,
    returnKeyLabel: string,
    numberOfLines: int,
    disableFullscreenUI: bool,
    textBreakStrategy: string,
    inlineImageLeft: string,
    inlineImagePadding: int,
    importantForAutofill: string,
    showSoftInputOnFocus: bool,
    autoCorrect: bool,
    allowFontScaling: bool,
    maxFontSizeMultiplier: real,
    keyboardType: string,
    returnKeyType: string,
    secureTextEntry: bool,
    value: string,
    selectTextOnFocus: bool,
    caretHidden: bool,
    contextMenuHidden: bool,
    textShadowColor: SharedColor,
    textShadowRadius: real,
    textDecorationLine: string,
    fontStyle: string,
    textShadowOffset: Size,
    lineHeight: real,
    textTransform: string,
    color: SharedColor,
    letterSpacing: real,
    fontSize: real,
    textAlign: string,
    includeFontPadding: bool,
    fontWeight: string,
    fontFamily: string,
    hasPadding: bool,
    hasPaddingHorizontal: bool,
    hasPaddingVertical: bool,
    hasPaddingLeft: bool,
    hasPaddingTop: bool,
    hasPaddingRight: bool,
    hasPaddingBottom: bool,
    hasPaddingStart: bool,
    hasPaddingEnd: bool)

  datatype AndroidTextInputProps = AndroidTextInputProps(base: BaseTextInputProps, fields: AndroidTextInputFields)

  /** The legacy text color: the literal 0, never parsed from the bag. */
  const LegacyColor: SharedColor := Some(0)

  /** The static defaults the constructor passes to each conversion. */
  const StaticDefaults := AndroidTextInputFields(
    "", "", 0, false, "", "", 0, "", false, false, false, 0.0, "", "", false, "",
    false, false, false, None, 0.0, "", "", Size(0.0, 0.0), 0.0, "", LegacyColor,
    0.0, 0.0, "", false, "", "",
    false, false, false, false, false, false, false, false, false)

  /**
   * A chosen stand-in for the base layer's default-constructed record: zero
   * values, empty strings, absent colors, `Tail` ellipsizing and high-quality
   * line breaking. The base layer's in-class initialisers are not part of this
   * model, so these values, which decide the base keys written when there is
   * no previous record, need not match the source's.
   */
  const BaseDefaults := BaseTextInputProps(
    ParagraphAttributes(0, Tail, HighQuality, false, 0.0, 0.0, false, HyphenationNone, None),
    "", "", None, None, None, None, None, 0, "", 0, false, "", false, false, SubmitDefault,
    false, false, None)

  /** A default-constructed record. */
  const Defaults := AndroidTextInputProps(BaseDefaults, StaticDefaults)

  /** Flag off: every field converted from the bag against the source record. */
  function ConvertFields(source: AndroidTextInputFields, raw: RawPropBag): AndroidTextInputFields {
    AndroidTextInputFields(
      ConvertRawProp(raw, AutoComplete, source.autoComplete, "", ParseString),
      ConvertRawProp(raw, ReturnKeyLabel, source.returnKeyLabel, "", ParseString),
      ConvertRawProp(raw, NumberOfLines, source.numberOfLines, 0, ParseInt),
      ConvertRawProp(raw, DisableFullscreenUI, source.disableFullscreenUI, false, ParseBool),
      ConvertRawProp(raw, TextBreakStrategy, source.textBreakStrategy, "", ParseString),
      ConvertRawProp(raw, InlineImageLeft, source.inlineImageLeft, "", ParseString),
      ConvertRawProp(raw, InlineImagePadding, source.inlineImagePadding, 0, ParseInt),
      ConvertRawProp(raw, ImportantForAutofill, source.importantForAutofill, "", ParseString),
      ConvertRawProp(raw, ShowSoftInputOnFocus, source.showSoftInputOnFocus, false, ParseBool),
      ConvertRawProp(raw, AutoCorrect, source.autoCorrect, false, ParseBool),
      ConvertRawProp(raw, AllowFontScaling, source.allowFontScaling, false, ParseBool),
      ConvertRawProp(raw, MaxFontSizeMultiplier, source.maxFontSizeMultiplier, 0.0, ParseFloat),
      ConvertRawProp(raw, KeyboardType, source.keyboardType, "", ParseString),
      ConvertRawProp(raw, ReturnKeyType, source.returnKeyType, "", ParseString),
      ConvertRawProp(raw, SecureTextEntry, source.secureTextEntry, false, ParseBool),
      ConvertRawProp(raw, Value, source.value, "", ParseString),
      ConvertRawProp(raw, SelectTextOnFocus, source.selectTextOnFocus, false, ParseBool),
      ConvertRawProp(raw, CaretHidden, source.caretHidden, false, ParseBool),
      ConvertRawProp(raw, ContextMenuHidden, source.contextMenuHidden, false, ParseBool),
      ConvertRawProp(raw, TextShadowColor, source.textShadowColor, None, ParseColor),
      ConvertRawProp(raw, TextShadowRadius, source.textShadowRadius, 0.0, ParseFloat),
      ConvertRawProp(raw, TextDecorationLine, source.textDecorationLine, "", ParseString),
      ConvertRawProp(raw, FontStyle, source.fontStyle, "", ParseString),
      ConvertRawProp(raw, TextShadowOffset, source.textShadowOffset, Size(0.0, 0.0), ParseSize),
      ConvertRawProp(raw, LineHeight, source.lineHeight, 0.0, ParseFloat),
      ConvertRawProp(raw, TextTransform, source.textTransform, "", ParseString),
      LegacyColor,
      ConvertRawProp(raw, LetterSpacing, source.letterSpacing, 0.0, ParseFloat),
      ConvertRawProp(raw, FontSize, source.fontSize, 0.0, ParseFloat),
      ConvertRawProp(raw, TextAlign, source.textAlign, "", ParseString),
      ConvertRawProp(raw, IncludeFontPadding, source.includeFontPadding, false, ParseBool),
      ConvertRawProp(raw, FontWeight, source.fontWeight, "", ParseString),
      ConvertRawProp(raw, FontFamily, source.fontFamily, "", ParseString),
      HasValue(raw, source.hasPadding, Padding),
      HasValue(raw, source.hasPaddingHorizontal, PaddingHorizontal),
      HasValue(raw, source.hasPaddingVertical, PaddingVertical),
      HasValue(raw, source.hasPaddingLeft, PaddingLeft),
      HasValue(raw, source.hasPaddingTop, PaddingTop),
      HasValue(raw, source.hasPaddingRight, PaddingRight),
      HasValue(raw, source.hasPaddingBottom, PaddingBottom),
      HasValue(raw, source.hasPaddingStart, PaddingStart),
      HasValue(raw, source.hasPaddingEnd, PaddingEnd))
  }

  /** Flag on, as written: a copy, except the two quirks of lines 48 and 143. */
  function CopyFieldsAsWritten(source: AndroidTextInputFields): (r: AndroidTextInputFields)
    ensures r == source.(returnKeyLabel := source.autoComplete, color := LegacyColor)
  {
    var s := source;
    AndroidTextInputFields(
      s.autoComplete, s.autoComplete, s.numberOfLines, s.disableFullscreenUI,
      s.textBreakStrategy, s.inlineImageLeft, s.inlineImagePadding, s.importantForAutofill,
      s.showSoftInputOnFocus, s.autoCorrect, s.allowFontScaling, s.maxFontSizeMultiplier,
      s.keyboardType, s.returnKeyType, s.secureTextEntry, s.value,
      s.selectTextOnFocus, s.caretHidden, s.contextMenuHidden, s.textShadowColor,
      s.textShadowRadius, s.textDecorationLine, s.fontStyle, s.textShadowOffset,
      s.lineHeight, s.textTransform, LegacyColor, s.letterSpacing, s.fontSize,
      s.textAlign, s.includeFontPadding, s.fontWeight, s.fontFamily,
      s.hasPadding, s.hasPaddingHorizontal, s.hasPaddingVertical, s.hasPaddingLeft,
      s.hasPaddingTop, s.hasPaddingRight, s.hasPaddingBottom, s.hasPaddingStart, s.hasPaddingEnd)
  }

  /** Flag on, corrected: a verbatim copy except the legacy color. */
  function CopyFields(source: AndroidTextInputFields): AndroidTextInputFields {
    source.(color := LegacyColor)
  }

  /** The constructor as written in the source. */
  function ConstructAsWritten(iteratorSetter: bool, source: AndroidTextInputProps, raw: RawPropBag,
                              baseCtor: (BaseTextInputProps, RawPropBag) -> BaseTextInputProps)
    : (r: AndroidTextInputProps)
    ensures r.base == baseCtor(source.base, raw)
    ensures r.fields.color == LegacyColor
    ensures iteratorSetter ==> r.fields == source.fields.(returnKeyLabel := source.fields.autoComplete, color := LegacyColor)
    ensures !iteratorSetter ==> r.fields == ConvertFields(source.fields, raw)
  {
    AndroidTextInputProps(baseCtor(source.base, raw),
      if iteratorSetter then CopyFieldsAsWritten(source.fields) else ConvertFields(source.fields, raw))
  }

  /** The constructor with the flag-on copy of `returnKeyLabel` corrected. */
  function Construct(iteratorSetter: bool, source: AndroidTextInputProps, raw: RawPropBag,
                     baseCtor: (BaseTextInputProps, RawPropBag) -> BaseTextInputProps)
    : (r: AndroidTextInputProps)
    ensures r.base == baseCtor(source.base, raw)
    ensures r.fields.color == LegacyColor
    ensures iteratorSetter ==> r.fields == source.fields.(color := LegacyColor)
    ensures !iteratorSetter ==> r.fields == ConvertFields(source.fields, raw)
  {
    AndroidTextInputProps(baseCtor(source.base, raw),
      if iteratorSetter then CopyFields(source.fields) else ConvertFields(source.fields, raw))
  }

  /**
   * With the flag off, each padding flag depends only on its own key and its
   * own previous value.
   */
  lemma PaddingFlagsFromOwnKey(source: AndroidTextInputFields, raw: RawPropBag)
    ensures var r := ConvertFields(source, raw);
      && r.hasPadding == HasValue(raw, source.hasPadding, Padding)
      && r.hasPaddingHorizontal == HasValue(raw, source.hasPaddingHorizontal, PaddingHorizontal)
      && r.hasPaddingVertical == HasValue(raw, source.hasPaddingVertical, PaddingVertical)
      && r.hasPaddingLeft == HasValue(raw, source.hasPaddingLeft, PaddingLeft)
      && r.hasPaddingTop == HasValue(raw, source.hasPaddingTop, PaddingTop)
      && r.hasPaddingRight == HasValue(raw, source.hasPaddingRight, PaddingRight)
      && r.hasPaddingBottom == HasValue(raw, source.hasPaddingBottom, PaddingBottom)
      && r.hasPaddingStart == HasValue(raw, source.hasPaddingStart, PaddingStart)
      && r.hasPaddingEnd == HasValue(raw, source.hasPaddingEnd, PaddingEnd)
  {
  }
}
