/**
 * The setter path of the props record: `setProp` applies one named update to
 * a record that is still being built, after the base layer's setter has had
 * its turn. With the iterator-setter flag on, the constructor only copies the
 * previous record and the caller then applies one `setProp` per entry of the
 * raw bag; this module proves that this streaming construction ends in the
 * same record as the bulk conversion of the flag-off constructor.
 */
module PropUpdater {
  import opened Wrappers
  import opened RawProps
  import opened Conversions
  import opened TextInputProps

  /**
   * This layer's part of `setProp` (the `switch` on the key): the field the
   * key names takes the value sent, and on null the default-constructed
   * record's value, which is the zero value of the field's type; a padding
   * key records only whether a payload was sent; `color` (whose case is
   * commented out) and every key the layer does not declare fall through
   * the switch and change nothing. Each field is written as its own
   * conditional; since the keys are distinct, at most one condition holds.
   */
  function SetField(f: AndroidTextInputFields, key: PropKey, value: RawValue): AndroidTextInputFields {
    f.(
      autoComplete := if key == AutoComplete then FromRawValue(value, "", ParseString) else f.autoComplete,
      returnKeyLabel := if key == ReturnKeyLabel then FromRawValue(value, "", ParseString) else f.returnKeyLabel,
      numberOfLines := if key == NumberOfLines then FromRawValue(value, 0, ParseInt) else f.numberOfLines,
      disableFullscreenUI := if key == DisableFullscreenUI then FromRawValue(value, false, ParseBool) else f.disableFullscreenUI,
      textBreakStrategy := if key == TextBreakStrategy then FromRawValue(value, "", ParseString) else f.textBreakStrategy,
      inlineImageLeft := if key == InlineImageLeft then FromRawValue(value, "", ParseString) else f.inlineImageLeft,
      inlineImagePadding := if key == InlineImagePadding then FromRawValue(value, 0, ParseInt) else f.inlineImagePadding,
      importantForAutofill := if key == ImportantForAutofill then FromRawValue(value, "", ParseString) else f.importantForAutofill,
      showSoftInputOnFocus := if key == ShowSoftInputOnFocus then FromRawValue(value, false, ParseBool) else f.showSoftInputOnFocus,
      autoCorrect := if key == AutoCorrect then FromRawValue(value, false, ParseBool) else f.autoCorrect,
      allowFontScaling := if key == AllowFontScaling then FromRawValue(value, false, ParseBool) else f.allowFontScaling,
      maxFontSizeMultiplier := if key == MaxFontSizeMultiplier then FromRawValue(value, 0.0, ParseFloat) else f.maxFontSizeMultiplier,
      keyboardType := if key == KeyboardType then FromRawValue(value, "", ParseString) else f.keyboardType,
      returnKeyType := if key == ReturnKeyType then FromRawValue(value, "", ParseString) else f.returnKeyType,
      secureTextEntry := if key == SecureTextEntry then FromRawValue(value, false, ParseBool) else f.secureTextEntry,
      selectTextOnFocus := if key == SelectTextOnFocus then FromRawValue(value, false, ParseBool) else f.selectTextOnFocus,
      caretHidden := if key == CaretHidden then FromRawValue(value, false, ParseBool) else f.caretHidden,
      contextMenuHidden := if key == ContextMenuHidden then FromRawValue(value, false, ParseBool) else f.contextMenuHidden,
      textShadowColor := if key == TextShadowColor then FromRawValue(value, None, ParseColor) else f.textShadowColor,
      textShadowRadius := if key == TextShadowRadius then FromRawValue(value, 0.0, ParseFloat) else f.textShadowRadius,
      textDecorationLine := if key == TextDecorationLine then FromRawValue(value, "", ParseString) else f.textDecorationLine,
      fontStyle := if key == FontStyle then FromRawValue(value, "", ParseString) else f.fontStyle,
      textShadowOffset := if key == TextShadowOffset then FromRawValue(value, Size(0.0, 0.0), ParseSize) else f.textShadowOffset,
      lineHeight := if key == LineHeight then FromRawValue(value, 0.0, ParseFloat) else f.lineHeight,
      textTransform := if key == TextTransform then FromRawValue(value, "", ParseString) else f.textTransform,
      letterSpacing := if key == LetterSpacing then FromRawValue(value, 0.0, ParseFloat) else f.letterSpacing,
      fontSize := if key == FontSize then FromRawValue(value, 0.0, ParseFloat) else f.fontSize,
      textAlign := if key == TextAlign then FromRawValue(value, "", ParseString) else f.textAlign,
      includeFontPadding := if key == IncludeFontPadding then FromRawValue(value, false, ParseBool) else f.includeFontPadding,
      fontWeight := if key == FontWeight then FromRawValue(value, "", ParseString) else f.fontWeight,
      fontFamily := if key == FontFamily then FromRawValue(value, "", ParseString) else f.fontFamily,
      value := if key == Value then FromRawValue(value, "", ParseString) else f.value,
      hasPadding := if key == Padding then value.HasValue() else f.hasPadding,
      hasPaddingHorizontal := if key == PaddingHorizontal then value.HasValue() else f.hasPaddingHorizontal,
      hasPaddingVertical := if key == PaddingVertical then value.HasValue() else f.hasPaddingVertical,
      hasPaddingLeft := if key == PaddingLeft then value.HasValue() else f.hasPaddingLeft,
      hasPaddingRight := if key == PaddingRight then value.HasValue() else f.hasPaddingRight,
      hasPaddingTop := if key == PaddingTop then value.HasValue() else f.hasPaddingTop,
      hasPaddingBottom := if key == PaddingBottom then value.HasValue() else f.hasPaddingBottom,
      hasPaddingStart := if key == PaddingStart then value.HasValue() else f.hasPaddingStart,
      hasPaddingEnd := if key == PaddingEnd then value.HasValue() else f.hasPaddingEnd)
  }

  /** `color` and every key this layer does not declare leave the layer unchanged. */
  lemma SetFieldIgnoresUndeclared(f: AndroidTextInputFields, key: PropKey, value: RawValue)
    ensures !key.IsField() || key == Color ==> SetField(f, key, value) == f
  {
  }

  /**
   * A parsed key sets its own field to the conversion of the value sent and
   * leaves every other field of the layer as it was.
   */
  lemma SetFieldAutoComplete(f: AndroidTextInputFields, value: RawValue)
    ensures SetField(f, AutoComplete, value) == f.(autoComplete := FromRawValue(value, "", ParseString))
  {
  }

  /** As SetFieldAutoComplete, for the key `returnKeyLabel`. */
  lemma SetFieldReturnKeyLabel(f: AndroidTextInputFields, value: RawValue)
    ensures SetField(f, ReturnKeyLabel, value) == f.(returnKeyLabel := FromRawValue(value, "", ParseString))
  {
  }

  /** As SetFieldAutoComplete, for the key `numberOfLines`. */
  lemma SetFieldNumberOfLines(f: AndroidTextInputFields, value: RawValue)
    ensures SetField(f, NumberOfLines, value) == f.(numberOfLines := FromRawValue(value, 0, ParseInt))
  {
  }

  /** As SetFieldAutoComplete, for the key `disableFullscreenUI`. */
  lemma SetFieldDisableFullscreenUI(f: AndroidTextInputFields, value: RawValue)
    ensures SetField(f, DisableFullscreenUI, value) == f.(disableFullscreenUI := FromRawValue(value, false, ParseBool))
  {
  }

  /** As SetFieldAutoComplete, for the key `textBreakStrategy`. */
  lemma SetFieldTextBreakStrategy(f: AndroidTextInputFields, value: RawValue)
    ensures SetField(f, TextBreakStrategy, value) == f.(textBreakStrategy := FromRawValue(value, "", ParseString))
  {
  }

  /** As SetFieldAutoComplete, for the key `inlineImageLeft`. */
  lemma SetFieldInlineImageLeft(f: AndroidTextInputFields, value: RawValue)
    ensures SetField(f, InlineImageLeft, value) == f.(inlineImageLeft := FromRawValue(value, "", ParseString))
  {
  }

  /** As SetFieldAutoComplete, for the key `inlineImagePadding`. */
  lemma SetFieldInlineImagePadding(f: AndroidTextInputFields, value: RawValue)
    ensures SetField(f, InlineImagePadding, value) == f.(inlineImagePadding := FromRawValue(value, 0, ParseInt))
  {
  }

  /** As SetFieldAutoComplete, for the key `importantForAutofill`. */
  lemma SetFieldImportantForAutofill(f: AndroidTextInputFields, value: RawValue)
    ensures SetField(f, ImportantForAutofill, value) == f.(importantForAutofill := FromRawValue(value, "", ParseString))
  {
  }

  /** As SetFieldAutoComplete, for the key `showSoftInputOnFocus`. */
  lemma SetFieldShowSoftInputOnFocus(f: AndroidTextInputFields, value: RawValue)
    ensures SetField(f, ShowSoftInputOnFocus, value) == f.(showSoftInputOnFocus := FromRawValue(value, false, ParseBool))
  {
  }

  /** As SetFieldAutoComplete, for the key `autoCorrect`. */
  lemma SetFieldAutoCorrect(f: AndroidTextInputFields, value: RawValue)
    ensures SetField(f, AutoCorrect, value) == f.(autoCorrect := FromRawValue(value, false, ParseBool))
  {
  }

  /** As SetFieldAutoComplete, for the key `allowFontScaling`. */
  lemma SetFieldAllowFontScaling(f: AndroidTextInputFields, value: RawValue)
    ensures SetField(f, AllowFontScaling, value) == f.(allowFontScaling := FromRawValue(value, false, ParseBool))
  {
  }

  /** As SetFieldAutoComplete, for the key `maxFontSizeMultiplier`. */
  lemma SetFieldMaxFontSizeMultiplier(f: AndroidTextInputFields, value: RawValue)
    ensures SetField(f, MaxFontSizeMultiplier, value) == f.(maxFontSizeMultiplier := FromRawValue(value, 0.0, ParseFloat))
  {
  }

  /** As SetFieldAutoComplete, for the key `keyboardType`. */
  lemma SetFieldKeyboardType(f: AndroidTextInputFields, value: RawValue)
    ensures SetField(f, KeyboardType, value) == f.(keyboardType := FromRawValue(value, "", ParseString))
  {
  }

  /** As SetFieldAutoComplete, for the key `returnKeyType`. */
  lemma SetFieldReturnKeyType(f: AndroidTextInputFields, value: RawValue)
    ensures SetField(f, ReturnKeyType, value) == f.(returnKeyType := FromRawValue(value, "", ParseString))
  {
  }

  /** As SetFieldAutoComplete, for the key `secureTextEntry`. */
  lemma SetFieldSecureTextEntry(f: AndroidTextInputFields, value: RawValue)
    ensures SetField(f, SecureTextEntry, value) == f.(secureTextEntry := FromRawValue(value, false, ParseBool))
  {
  }

  /** As SetFieldAutoComplete, for the key `selectTextOnFocus`. */
  lemma SetFieldSelectTextOnFocus(f: AndroidTextInputFields, value: RawValue)
    ensures SetField(f, SelectTextOnFocus, value) == f.(selectTextOnFocus := FromRawValue(value, false, ParseBool))
  {
  }

  /** As SetFieldAutoComplete, for the key `caretHidden`. */
  lemma SetFieldCaretHidden(f: AndroidTextInputFields, value: RawValue)
    ensures SetField(f, CaretHidden, value) == f.(caretHidden := FromRawValue(value, false, ParseBool))
  {
  }

  /** As SetFieldAutoComplete, for the key `contextMenuHidden`. */
  lemma SetFieldContextMenuHidden(f: AndroidTextInputFields, value: RawValue)
    ensures SetField(f, ContextMenuHidden, value) == f.(contextMenuHidden := FromRawValue(value, false, ParseBool))
  {
  }

  /** As SetFieldAutoComplete, for the key `textShadowColor`. */
  lemma SetFieldTextShadowColor(f: AndroidTextInputFields, value: RawValue)
    ensures SetField(f, TextShadowColor, value) == f.(textShadowColor := FromRawValue(value, None, ParseColor))
  {
  }

  /** As SetFieldAutoComplete, for the key `textShadowRadius`. */
  lemma SetFieldTextShadowRadius(f: AndroidTextInputFields, value: RawValue)
    ensures SetField(f, TextShadowRadius, value) == f.(textShadowRadius := FromRawValue(value, 0.0, ParseFloat))
  {
  }

  /** As SetFieldAutoComplete, for the key `textDecorationLine`. */
  lemma SetFieldTextDecorationLine(f: AndroidTextInputFields, value: RawValue)
    ensures SetField(f, TextDecorationLine, value) == f.(textDecorationLine := FromRawValue(value, "", ParseString))
  {
  }

  /** As SetFieldAutoComplete, for the key `fontStyle`. */
  lemma SetFieldFontStyle(f: AndroidTextInputFields, value: RawValue)
    ensures SetField(f, FontStyle, value) == f.(fontStyle := FromRawValue(value, "", ParseString))
  {
  }

  /** As SetFieldAutoComplete, for the key `textShadowOffset`. */
  lemma SetFieldTextShadowOffset(f: AndroidTextInputFields, value: RawValue)
    ensures SetField(f, TextShadowOffset, value) == f.(textShadowOffset := FromRawValue(value, Size(0.0, 0.0), ParseSize))
  {
  }

  /** As SetFieldAutoComplete, for the key `lineHeight`. */
  lemma SetFieldLineHeight(f: AndroidTextInputFields, value: RawValue)
    ensures SetField(f, LineHeight, value) == f.(lineHeight := FromRawValue(value, 0.0, ParseFloat))
  {
  }

  /** As SetFieldAutoComplete, for the key `textTransform`. */
  lemma SetFieldTextTransform(f: AndroidTextInputFields, value: RawValue)
    ensures SetField(f, TextTransform, value) == f.(textTransform := FromRawValue(value, "", ParseString))
  {
  }

  /** As SetFieldAutoComplete, for the key `letterSpacing`. */
  lemma SetFieldLetterSpacing(f: AndroidTextInputFields, value: RawValue)
    ensures SetField(f, LetterSpacing, value) == f.(letterSpacing := FromRawValue(value, 0.0, ParseFloat))
  {
  }

  /** As SetFieldAutoComplete, for the key `fontSize`. */
  lemma SetFieldFontSize(f: AndroidTextInputFields, value: RawValue)
    ensures SetField(f, FontSize, value) == f.(fontSize := FromRawValue(value, 0.0, ParseFloat))
  {
  }

  /** As SetFieldAutoComplete, for the key `textAlign`. */
  lemma SetFieldTextAlign(f: AndroidTextInputFields, value: RawValue)
    ensures SetField(f, TextAlign, value) == f.(textAlign := FromRawValue(value, "", ParseString))
  {
  }

  /** As SetFieldAutoComplete, for the key `includeFontPadding`. */
  lemma SetFieldIncludeFontPadding(f: AndroidTextInputFields, value: RawValue)
    ensures SetField(f, IncludeFontPadding, value) == f.(includeFontPadding := FromRawValue(value, false, ParseBool))
  {
  }

  /** As SetFieldAutoComplete, for the key `fontWeight`. */
  lemma SetFieldFontWeight(f: AndroidTextInputFields, value: RawValue)
    ensures SetField(f, FontWeight, value) == f.(fontWeight := FromRawValue(value, "", ParseString))
  {
  }

  /** As SetFieldAutoComplete, for the key `fontFamily`. */
  lemma SetFieldFontFamily(f: AndroidTextInputFields, value: RawValue)
    ensures SetField(f, FontFamily, value) == f.(fontFamily := FromRawValue(value, "", ParseString))
  {
  }

  /** As SetFieldAutoComplete, for the key `value`. */
  lemma SetFieldValue(f: AndroidTextInputFields, value: RawValue)
    ensures SetField(f, Value, value) == f.(value := FromRawValue(value, "", ParseString))
  {
  }

  /**
   * A padding key sets its own presence flag to whether a payload was sent
   * and leaves every other field, the other eight flags among them, as it was.
   */
  lemma SetFieldPadding(f: AndroidTextInputFields, value: RawValue)
    ensures SetField(f, Padding, value) == f.(hasPadding := value.HasValue())
  {
  }

  /** As SetFieldPadding, for the key `paddingHorizontal`. */
  lemma SetFieldPaddingHorizontal(f: AndroidTextInputFields, value: RawValue)
    ensures SetField(f, PaddingHorizontal, value) == f.(hasPaddingHorizontal := value.HasValue())
  {
  }

  /** As SetFieldPadding, for the key `paddingVertical`. */
  lemma SetFieldPaddingVertical(f: AndroidTextInputFields, value: RawValue)
    ensures SetField(f, PaddingVertical, value) == f.(hasPaddingVertical := value.HasValue())
  {
  }

  /** As SetFieldPadding, for the key `paddingLeft`. */
  lemma SetFieldPaddingLeft(f: AndroidTextInputFields, value: RawValue)
    ensures SetField(f, PaddingLeft, value) == f.(hasPaddingLeft := value.HasValue())
  {
  }

  /** As SetFieldPadding, for the key `paddingRight`. */
  lemma SetFieldPaddingRight(f: AndroidTextInputFields, value: RawValue)
    ensures SetField(f, PaddingRight, value) == f.(hasPaddingRight := value.HasValue())
  {
  }

  /** As SetFieldPadding, for the key `paddingTop`. */
  lemma SetFieldPaddingTop(f: AndroidTextInputFields, value: RawValue)
    ensures SetField(f, PaddingTop, value) == f.(hasPaddingTop := value.HasValue())
  {
  }

  /** As SetFieldPadding, for the key `paddingBottom`. */
  lemma SetFieldPaddingBottom(f: AndroidTextInputFields, value: RawValue)
    ensures SetField(f, PaddingBottom, value) == f.(hasPaddingBottom := value.HasValue())
  {
  }

  /** As SetFieldPadding, for the key `paddingStart`. */
  lemma SetFieldPaddingStart(f: AndroidTextInputFields, value: RawValue)
    ensures SetField(f, PaddingStart, value) == f.(hasPaddingStart := value.HasValue())
  {
  }

  /** As SetFieldPadding, for the key `paddingEnd`. */
  lemma SetFieldPaddingEnd(f: AndroidTextInputFields, value: RawValue)
    ensures SetField(f, PaddingEnd, value) == f.(hasPaddingEnd := value.HasValue())
  {
  }

  /** A parsed key leaves all nine presence flags alone. */
  lemma SetFieldParsedKeepsPadding(f: AndroidTextInputFields, key: PropKey, value: RawValue)
    requires key.IsParsed()
    ensures var r := SetField(f, key, value);
      && r.hasPadding == f.hasPadding
      && r.hasPaddingHorizontal == f.hasPaddingHorizontal
      && r.hasPaddingVertical == f.hasPaddingVertical
      && r.hasPaddingLeft == f.hasPaddingLeft
      && r.hasPaddingRight == f.hasPaddingRight
      && r.hasPaddingTop == f.hasPaddingTop
      && r.hasPaddingBottom == f.hasPaddingBottom
      && r.hasPaddingStart == f.hasPaddingStart
      && r.hasPaddingEnd == f.hasPaddingEnd
  {
  }

  /** Part of SetAfterConvert: `autoComplete`. */
  lemma SetAfterConvertAutoComplete(source: AndroidTextInputFields, raw: RawPropBag, k: PropKey, v: RawValue)
    ensures SetField(ConvertFields(source, raw), k, v).autoComplete == ConvertFields(source, raw[k := v]).autoComplete
  {
    ConvertRawPropUpdate(raw, k, v, AutoComplete, source.autoComplete, "", ParseString);
  }

  /** Part of SetAfterConvert: `returnKeyLabel`. */
  lemma SetAfterConvertReturnKeyLabel(source: AndroidTextInputFields, raw: RawPropBag, k: PropKey, v: RawValue)
    ensures SetField(ConvertFields(source, raw), k, v).returnKeyLabel == ConvertFields(source, raw[k := v]).returnKeyLabel
  {
    ConvertRawPropUpdate(raw, k, v, ReturnKeyLabel, source.returnKeyLabel, "", ParseString);
  }

  /** Part of SetAfterConvert: `numberOfLines`. */
  lemma SetAfterConvertNumberOfLines(source: AndroidTextInputFields, raw: RawPropBag, k: PropKey, v: RawValue)
    ensures SetField(ConvertFields(source, raw), k, v).numberOfLines == ConvertFields(source, raw[k := v]).numberOfLines
  {
    ConvertRawPropUpdate(raw, k, v, NumberOfLines, source.numberOfLines, 0, ParseInt);
  }

  /** Part of SetAfterConvert: `disableFullscreenUI`. */
  lemma SetAfterConvertDisableFullscreenUI(source: AndroidTextInputFields, raw: RawPropBag, k: PropKey, v: RawValue)
    ensures SetField(ConvertFields(source, raw), k, v).disableFullscreenUI == ConvertFields(source, raw[k := v]).disableFullscreenUI
  {
    ConvertRawPropUpdate(raw, k, v, DisableFullscreenUI, source.disableFullscreenUI, false, ParseBool);
  }

  /** Part of SetAfterConvert: `textBreakStrategy`. */
  lemma SetAfterConvertTextBreakStrategy(source: AndroidTextInputFields, raw: RawPropBag, k: PropKey, v: RawValue)
    ensures SetField(ConvertFields(source, raw), k, v).textBreakStrategy == ConvertFields(source, raw[k := v]).textBreakStrategy
  {
    ConvertRawPropUpdate(raw, k, v, TextBreakStrategy, source.textBreakStrategy, "", ParseString);
  }

  /** Part of SetAfterConvert: `inlineImageLeft`. */
  lemma SetAfterConvertInlineImageLeft(source: AndroidTextInputFields, raw: RawPropBag, k: PropKey, v: RawValue)
    ensures SetField(ConvertFields(source, raw), k, v).inlineImageLeft == ConvertFields(source, raw[k := v]).inlineImageLeft
  {
    ConvertRawPropUpdate(raw, k, v, InlineImageLeft, source.inlineImageLeft, "", ParseString);
  }

  /** Part of SetAfterConvert: `inlineImagePadding`. */
  lemma SetAfterConvertInlineImagePadding(source: AndroidTextInputFields, raw: RawPropBag, k: PropKey, v: RawValue)
    ensures SetField(ConvertFields(source, raw), k, v).inlineImagePadding == ConvertFields(source, raw[k := v]).inlineImagePadding
  {
    ConvertRawPropUpdate(raw, k, v, InlineImagePadding, source.inlineImagePadding, 0, ParseInt);
  }

  /** Part of SetAfterConvert: `importantForAutofill`. */
  lemma SetAfterConvertImportantForAutofill(source: AndroidTextInputFields, raw: RawPropBag, k: PropKey, v: RawValue)
    ensures SetField(ConvertFields(source, raw), k, v).importantForAutofill == ConvertFields(source, raw[k := v]).importantForAutofill
  {
    ConvertRawPropUpdate(raw, k, v, ImportantForAutofill, source.importantForAutofill, "", ParseString);
  }

  /** Part of SetAfterConvert: `showSoftInputOnFocus`. */
  lemma SetAfterConvertShowSoftInputOnFocus(source: AndroidTextInputFields, raw: RawPropBag, k: PropKey, v: RawValue)
    ensures SetField(ConvertFields(source, raw), k, v).showSoftInputOnFocus == ConvertFields(source, raw[k := v]).showSoftInputOnFocus
  {
    ConvertRawPropUpdate(raw, k, v, ShowSoftInputOnFocus, source.showSoftInputOnFocus, false, ParseBool);
  }

  /** Part of SetAfterConvert: `autoCorrect`. */
  lemma SetAfterConvertAutoCorrect(source: AndroidTextInputFields, raw: RawPropBag, k: PropKey, v: RawValue)
    ensures SetField(ConvertFields(source, raw), k, v).autoCorrect == ConvertFields(source, raw[k := v]).autoCorrect
  {
    ConvertRawPropUpdate(raw, k, v, AutoCorrect, source.autoCorrect, false, ParseBool);
  }

  /** Part of SetAfterConvert: `allowFontScaling`. */
  lemma SetAfterConvertAllowFontScaling(source: AndroidTextInputFields, raw: RawPropBag, k: PropKey, v: RawValue)
    ensures SetField(ConvertFields(source, raw), k, v).allowFontScaling == ConvertFields(source, raw[k := v]).allowFontScaling
  {
    ConvertRawPropUpdate(raw, k, v, AllowFontScaling, source.allowFontScaling, false, ParseBool);
  }

  /** Part of SetAfterConvert: `maxFontSizeMultiplier`. */
  lemma SetAfterConvertMaxFontSizeMultiplier(source: AndroidTextInputFields, raw: RawPropBag, k: PropKey, v: RawValue)
    ensures SetField(ConvertFields(source, raw), k, v).maxFontSizeMultiplier == ConvertFields(source, raw[k := v]).maxFontSizeMultiplier
  {
    ConvertRawPropUpdate(raw, k, v, MaxFontSizeMultiplier, source.maxFontSizeMultiplier, 0.0, ParseFloat);
  }

  /** Part of SetAfterConvert: `keyboardType`. */
  lemma SetAfterConvertKeyboardType(source: AndroidTextInputFields, raw: RawPropBag, k: PropKey, v: RawValue)
    ensures SetField(ConvertFields(source, raw), k, v).keyboardType == ConvertFields(source, raw[k := v]).keyboardType
  {
    ConvertRawPropUpdate(raw, k, v, KeyboardType, source.keyboardType, "", ParseString);
  }

  /** Part of SetAfterConvert: `returnKeyType`. */
  lemma SetAfterConvertReturnKeyType(source: AndroidTextInputFields, raw: RawPropBag, k: PropKey, v: RawValue)
    ensures SetField(ConvertFields(source, raw), k, v).returnKeyType == ConvertFields(source, raw[k := v]).returnKeyType
  {
    ConvertRawPropUpdate(raw, k, v, ReturnKeyType, source.returnKeyType, "", ParseString);
  }

  /** Part of SetAfterConvert: `secureTextEntry`. */
  lemma SetAfterConvertSecureTextEntry(source: AndroidTextInputFields, raw: RawPropBag, k: PropKey, v: RawValue)
    ensures SetField(ConvertFields(source, raw), k, v).secureTextEntry == ConvertFields(source, raw[k := v]).secureTextEntry
  {
    ConvertRawPropUpdate(raw, k, v, SecureTextEntry, source.secureTextEntry, false, ParseBool);
  }

  /** Part of SetAfterConvert: `selectTextOnFocus`. */
  lemma SetAfterConvertSelectTextOnFocus(source: AndroidTextInputFields, raw: RawPropBag, k: PropKey, v: RawValue)
    ensures SetField(ConvertFields(source, raw), k, v).selectTextOnFocus == ConvertFields(source, raw[k := v]).selectTextOnFocus
  {
    ConvertRawPropUpdate(raw, k, v, SelectTextOnFocus, source.selectTextOnFocus, false, ParseBool);
  }

  /** Part of SetAfterConvert: `caretHidden`. */
  lemma SetAfterConvertCaretHidden(source: AndroidTextInputFields, raw: RawPropBag, k: PropKey, v: RawValue)
    ensures SetField(ConvertFields(source, raw), k, v).caretHidden == ConvertFields(source, raw[k := v]).caretHidden
  {
    ConvertRawPropUpdate(raw, k, v, CaretHidden, source.caretHidden, false, ParseBool);
  }

  /** Part of SetAfterConvert: `contextMenuHidden`. */
  lemma SetAfterConvertContextMenuHidden(source: AndroidTextInputFields, raw: RawPropBag, k: PropKey, v: RawValue)
    ensures SetField(ConvertFields(source, raw), k, v).contextMenuHidden == ConvertFields(source, raw[k := v]).contextMenuHidden
  {
    ConvertRawPropUpdate(raw, k, v, ContextMenuHidden, source.contextMenuHidden, false, ParseBool);
  }

  /** Part of SetAfterConvert: `textShadowColor`. */
  lemma SetAfterConvertTextShadowColor(source: AndroidTextInputFields, raw: RawPropBag, k: PropKey, v: RawValue)
    ensures SetField(ConvertFields(source, raw), k, v).textShadowColor == ConvertFields(source, raw[k := v]).textShadowColor
  {
    ConvertRawPropUpdate(raw, k, v, TextShadowColor, source.textShadowColor, None, ParseColor);
  }

  /** Part of SetAfterConvert: `textShadowRadius`. */
  lemma SetAfterConvertTextShadowRadius(source: AndroidTextInputFields, raw: RawPropBag, k: PropKey, v: RawValue)
    ensures SetField(ConvertFields(source, raw), k, v).textShadowRadius == ConvertFields(source, raw[k := v]).textShadowRadius
  {
    ConvertRawPropUpdate(raw, k, v, TextShadowRadius, source.textShadowRadius, 0.0, ParseFloat);
  }

  /** Part of SetAfterConvert: `textDecorationLine`. */
  lemma SetAfterConvertTextDecorationLine(source: AndroidTextInputFields, raw: RawPropBag, k: PropKey, v: RawValue)
    ensures SetField(ConvertFields(source, raw), k, v).textDecorationLine == ConvertFields(source, raw[k := v]).textDecorationLine
  {
    ConvertRawPropUpdate(raw, k, v, TextDecorationLine, source.textDecorationLine, "", ParseString);
  }

  /** Part of SetAfterConvert: `fontStyle`. */
  lemma SetAfterConvertFontStyle(source: AndroidTextInputFields, raw: RawPropBag, k: PropKey, v: RawValue)
    ensures SetField(ConvertFields(source, raw), k, v).fontStyle == ConvertFields(source, raw[k := v]).fontStyle
  {
    ConvertRawPropUpdate(raw, k, v, FontStyle, source.fontStyle, "", ParseString);
  }

  /** Part of SetAfterConvert: `textShadowOffset`. */
  lemma SetAfterConvertTextShadowOffset(source: AndroidTextInputFields, raw: RawPropBag, k: PropKey, v: RawValue)
    ensures SetField(ConvertFields(source, raw), k, v).textShadowOffset == ConvertFields(source, raw[k := v]).textShadowOffset
  {
    ConvertRawPropUpdate(raw, k, v, TextShadowOffset, source.textShadowOffset, Size(0.0, 0.0), ParseSize);
  }

  /** Part of SetAfterConvert: `lineHeight`. */
  lemma SetAfterConvertLineHeight(source: AndroidTextInputFields, raw: RawPropBag, k: PropKey, v: RawValue)
    ensures SetField(ConvertFields(source, raw), k, v).lineHeight == ConvertFields(source, raw[k := v]).lineHeight
  {
    ConvertRawPropUpdate(raw, k, v, LineHeight, source.lineHeight, 0.0, ParseFloat);
  }

  /** Part of SetAfterConvert: `textTransform`. */
  lemma SetAfterConvertTextTransform(source: AndroidTextInputFields, raw: RawPropBag, k: PropKey, v: RawValue)
    ensures SetField(ConvertFields(source, raw), k, v).textTransform == ConvertFields(source, raw[k := v]).textTransform
  {
    ConvertRawPropUpdate(raw, k, v, TextTransform, source.textTransform, "", ParseString);
  }

  /** Part of SetAfterConvert: `letterSpacing`. */
  lemma SetAfterConvertLetterSpacing(source: AndroidTextInputFields, raw: RawPropBag, k: PropKey, v: RawValue)
    ensures SetField(ConvertFields(source, raw), k, v).letterSpacing == ConvertFields(source, raw[k := v]).letterSpacing
  {
    ConvertRawPropUpdate(raw, k, v, LetterSpacing, source.letterSpacing, 0.0, ParseFloat);
  }

  /** Part of SetAfterConvert: `fontSize`. */
  lemma SetAfterConvertFontSize(source: AndroidTextInputFields, raw: RawPropBag, k: PropKey, v: RawValue)
    ensures SetField(ConvertFields(source, raw), k, v).fontSize == ConvertFields(source, raw[k := v]).fontSize
  {
    ConvertRawPropUpdate(raw, k, v, FontSize, source.fontSize, 0.0, ParseFloat);
  }

  /** Part of SetAfterConvert: `textAlign`. */
  lemma SetAfterConvertTextAlign(source: AndroidTextInputFields, raw: RawPropBag, k: PropKey, v: RawValue)
    ensures SetField(ConvertFields(source, raw), k, v).textAlign == ConvertFields(source, raw[k := v]).textAlign
  {
    ConvertRawPropUpdate(raw, k, v, TextAlign, source.textAlign, "", ParseString);
  }

  /** Part of SetAfterConvert: `includeFontPadding`. */
  lemma SetAfterConvertIncludeFontPadding(source: AndroidTextInputFields, raw: RawPropBag, k: PropKey, v: RawValue)
    ensures SetField(ConvertFields(source, raw), k, v).includeFontPadding == ConvertFields(source, raw[k := v]).includeFontPadding
  {
    ConvertRawPropUpdate(raw, k, v, IncludeFontPadding, source.includeFontPadding, false, ParseBool);
  }

  /** Part of SetAfterConvert: `fontWeight`. */
  lemma SetAfterConvertFontWeight(source: AndroidTextInputFields, raw: RawPropBag, k: PropKey, v: RawValue)
    ensures SetField(ConvertFields(source, raw), k, v).fontWeight == ConvertFields(source, raw[k := v]).fontWeight
  {
    ConvertRawPropUpdate(raw, k, v, FontWeight, source.fontWeight, "", ParseString);
  }

  /** Part of SetAfterConvert: `fontFamily`. */
  lemma SetAfterConvertFontFamily(source: AndroidTextInputFields, raw: RawPropBag, k: PropKey, v: RawValue)
    ensures SetField(ConvertFields(source, raw), k, v).fontFamily == ConvertFields(source, raw[k := v]).fontFamily
  {
    ConvertRawPropUpdate(raw, k, v, FontFamily, source.fontFamily, "", ParseString);
  }

  /** Part of SetAfterConvert: `value`. */
  lemma SetAfterConvertValue(source: AndroidTextInputFields, raw: RawPropBag, k: PropKey, v: RawValue)
    ensures SetField(ConvertFields(source, raw), k, v).value == ConvertFields(source, raw[k := v]).value
  {
    ConvertRawPropUpdate(raw, k, v, Value, source.value, "", ParseString);
  }

  /** Part of SetAfterConvert: `hasPadding`. */
  lemma SetAfterConvertHasPadding(source: AndroidTextInputFields, raw: RawPropBag, k: PropKey, v: RawValue)
    ensures SetField(ConvertFields(source, raw), k, v).hasPadding == ConvertFields(source, raw[k := v]).hasPadding
  {
    assert SetField(ConvertFields(source, raw), k, v).hasPadding
        == if k == Padding then v.HasValue() else HasValue(raw, source.hasPadding, Padding);
    assert ConvertFields(source, raw[k := v]).hasPadding == HasValue(raw[k := v], source.hasPadding, Padding);
    HasValueUpdate(raw, k, v, Padding, source.hasPadding);
  }

  /** Part of SetAfterConvert: `hasPaddingHorizontal`. */
  lemma SetAfterConvertHasPaddingHorizontal(source: AndroidTextInputFields, raw: RawPropBag, k: PropKey, v: RawValue)
    ensures SetField(ConvertFields(source, raw), k, v).hasPaddingHorizontal == ConvertFields(source, raw[k := v]).hasPaddingHorizontal
  {
    assert SetField(ConvertFields(source, raw), k, v).hasPaddingHorizontal
        == if k == PaddingHorizontal then v.HasValue() else HasValue(raw, source.hasPaddingHorizontal, PaddingHorizontal);
    assert ConvertFields(source, raw[k := v]).hasPaddingHorizontal == HasValue(raw[k := v], source.hasPaddingHorizontal, PaddingHorizontal);
    HasValueUpdate(raw, k, v, PaddingHorizontal, source.hasPaddingHorizontal);
  }

  /** Part of SetAfterConvert: `hasPaddingVertical`. */
  lemma SetAfterConvertHasPaddingVertical(source: AndroidTextInputFields, raw: RawPropBag, k: PropKey, v: RawValue)
    ensures SetField(ConvertFields(source, raw), k, v).hasPaddingVertical == ConvertFields(source, raw[k := v]).hasPaddingVertical
  {
    assert SetField(ConvertFields(source, raw), k, v).hasPaddingVertical
        == if k == PaddingVertical then v.HasValue() else HasValue(raw, source.hasPaddingVertical, PaddingVertical);
    assert ConvertFields(source, raw[k := v]).hasPaddingVertical == HasValue(raw[k := v], source.hasPaddingVertical, PaddingVertical);
    HasValueUpdate(raw, k, v, PaddingVertical, source.hasPaddingVertical);
  }

  /** Part of SetAfterConvert: `hasPaddingLeft`. */
  lemma SetAfterConvertHasPaddingLeft(source: AndroidTextInputFields, raw: RawPropBag, k: PropKey, v: RawValue)
    ensures SetField(ConvertFields(source, raw), k, v).hasPaddingLeft == ConvertFields(source, raw[k := v]).hasPaddingLeft
  {
    assert SetField(ConvertFields(source, raw), k, v).hasPaddingLeft
        == if k == PaddingLeft then v.HasValue() else HasValue(raw, source.hasPaddingLeft, PaddingLeft);
    assert ConvertFields(source, raw[k := v]).hasPaddingLeft == HasValue(raw[k := v], source.hasPaddingLeft, PaddingLeft);
    HasValueUpdate(raw, k, v, PaddingLeft, source.hasPaddingLeft);
  }

  /** Part of SetAfterConvert: `hasPaddingRight`. */
  lemma SetAfterConvertHasPaddingRight(source: AndroidTextInputFields, raw: RawPropBag, k: PropKey, v: RawValue)
    ensures SetField(ConvertFields(source, raw), k, v).hasPaddingRight == ConvertFields(source, raw[k := v]).hasPaddingRight
  {
    assert SetField(ConvertFields(source, raw), k, v).hasPaddingRight
        == if k == PaddingRight then v.HasValue() else HasValue(raw, source.hasPaddingRight, PaddingRight);
    assert ConvertFields(source, raw[k := v]).hasPaddingRight == HasValue(raw[k := v], source.hasPaddingRight, PaddingRight);
    HasValueUpdate(raw, k, v, PaddingRight, source.hasPaddingRight);
  }

  /** Part of SetAfterConvert: `hasPaddingTop`. */
  lemma SetAfterConvertHasPaddingTop(source: AndroidTextInputFields, raw: RawPropBag, k: PropKey, v: RawValue)
    ensures SetField(ConvertFields(source, raw), k, v).hasPaddingTop == ConvertFields(source, raw[k := v]).hasPaddingTop
  {
    assert SetField(ConvertFields(source, raw), k, v).hasPaddingTop
        == if k == PaddingTop then v.HasValue() else HasValue(raw, source.hasPaddingTop, PaddingTop);
    assert ConvertFields(source, raw[k := v]).hasPaddingTop == HasValue(raw[k := v], source.hasPaddingTop, PaddingTop);
    HasValueUpdate(raw, k, v, PaddingTop, source.hasPaddingTop);
  }

  /** Part of SetAfterConvert: `hasPaddingBottom`. */
  lemma SetAfterConvertHasPaddingBottom(source: AndroidTextInputFields, raw: RawPropBag, k: PropKey, v: RawValue)
    ensures SetField(ConvertFields(source, raw), k, v).hasPaddingBottom == ConvertFields(source, raw[k := v]).hasPaddingBottom
  {
    assert SetField(ConvertFields(source, raw), k, v).hasPaddingBottom
        == if k == PaddingBottom then v.HasValue() else HasValue(raw, source.hasPaddingBottom, PaddingBottom);
    assert ConvertFields(source, raw[k := v]).hasPaddingBottom == HasValue(raw[k := v], source.hasPaddingBottom, PaddingBottom);
    HasValueUpdate(raw, k, v, PaddingBottom, source.hasPaddingBottom);
  }

  /** Part of SetAfterConvert: `hasPaddingStart`. */
  lemma SetAfterConvertHasPaddingStart(source: AndroidTextInputFields, raw: RawPropBag, k: PropKey, v: RawValue)
    ensures SetField(ConvertFields(source, raw), k, v).hasPaddingStart == ConvertFields(source, raw[k := v]).hasPaddingStart
  {
    assert SetField(ConvertFields(source, raw), k, v).hasPaddingStart
        == if k == PaddingStart then v.HasValue() else HasValue(raw, source.hasPaddingStart, PaddingStart);
    assert ConvertFields(source, raw[k := v]).hasPaddingStart == HasValue(raw[k := v], source.hasPaddingStart, PaddingStart);
    HasValueUpdate(raw, k, v, PaddingStart, source.hasPaddingStart);
  }

  /** Part of SetAfterConvert: `hasPaddingEnd`. */
  lemma SetAfterConvertHasPaddingEnd(source: AndroidTextInputFields, raw: RawPropBag, k: PropKey, v: RawValue)
    ensures SetField(ConvertFields(source, raw), k, v).hasPaddingEnd == ConvertFields(source, raw[k := v]).hasPaddingEnd
  {
    assert SetField(ConvertFields(source, raw), k, v).hasPaddingEnd
        == if k == PaddingEnd then v.HasValue() else HasValue(raw, source.hasPaddingEnd, PaddingEnd);
    assert ConvertFields(source, raw[k := v]).hasPaddingEnd == HasValue(raw[k := v], source.hasPaddingEnd, PaddingEnd);
    HasValueUpdate(raw, k, v, PaddingEnd, source.hasPaddingEnd);
  }

  /**
   * One update after a bulk conversion is the bulk conversion of the bag with
   * that update in it.
   */
  lemma SetAfterConvert(source: AndroidTextInputFields, raw: RawPropBag, k: PropKey, v: RawValue)
    ensures SetField(ConvertFields(source, raw), k, v) == ConvertFields(source, raw[k := v])
  {
    SetAfterConvertAutoComplete(source, raw, k, v);
    SetAfterConvertReturnKeyLabel(source, raw, k, v);
    SetAfterConvertNumberOfLines(source, raw, k, v);
    SetAfterConvertDisableFullscreenUI(source, raw, k, v);
    SetAfterConvertTextBreakStrategy(source, raw, k, v);
    SetAfterConvertInlineImageLeft(source, raw, k, v);
    SetAfterConvertInlineImagePadding(source, raw, k, v);
    SetAfterConvertImportantForAutofill(source, raw, k, v);
    SetAfterConvertShowSoftInputOnFocus(source, raw, k, v);
    SetAfterConvertAutoCorrect(source, raw, k, v);
    SetAfterConvertAllowFontScaling(source, raw, k, v);
    SetAfterConvertMaxFontSizeMultiplier(source, raw, k, v);
    SetAfterConvertKeyboardType(source, raw, k, v);
    SetAfterConvertReturnKeyType(source, raw, k, v);
    SetAfterConvertSecureTextEntry(source, raw, k, v);
    SetAfterConvertSelectTextOnFocus(source, raw, k, v);
    SetAfterConvertCaretHidden(source, raw, k, v);
    SetAfterConvertContextMenuHidden(source, raw, k, v);
    SetAfterConvertTextShadowColor(source, raw, k, v);
    SetAfterConvertTextShadowRadius(source, raw, k, v);
    SetAfterConvertTextDecorationLine(source, raw, k, v);
    SetAfterConvertFontStyle(source, raw, k, v);
    SetAfterConvertTextShadowOffset(source, raw, k, v);
    SetAfterConvertLineHeight(source, raw, k, v);
    SetAfterConvertTextTransform(source, raw, k, v);
    SetAfterConvertLetterSpacing(source, raw, k, v);
    SetAfterConvertFontSize(source, raw, k, v);
    SetAfterConvertTextAlign(source, raw, k, v);
    SetAfterConvertIncludeFontPadding(source, raw, k, v);
    SetAfterConvertFontWeight(source, raw, k, v);
    SetAfterConvertFontFamily(source, raw, k, v);
    SetAfterConvertValue(source, raw, k, v);
    SetAfterConvertHasPadding(source, raw, k, v);
    SetAfterConvertHasPaddingHorizontal(source, raw, k, v);
    SetAfterConvertHasPaddingVertical(source, raw, k, v);
    SetAfterConvertHasPaddingLeft(source, raw, k, v);
    SetAfterConvertHasPaddingRight(source, raw, k, v);
    SetAfterConvertHasPaddingTop(source, raw, k, v);
    SetAfterConvertHasPaddingBottom(source, raw, k, v);
    SetAfterConvertHasPaddingStart(source, raw, k, v);
    SetAfterConvertHasPaddingEnd(source, raw, k, v);
  }

  /**
   * A record that is still being built, as the props parser holds it while
   * it feeds the raw bag's entries to `setProp` one at a time.
   */
  class PropsUnderConstruction {
    var props: AndroidTextInputProps

    constructor(initial: AndroidTextInputProps)
      ensures props == initial
    {
      props := initial;
    }

    /**
     * `setProp`: the base layer's setter runs first, unconditionally, then
     * this layer's switch assigns at most one of its own fields.
     */
    method SetProp(key: PropKey, value: RawValue,
                   baseSetProp: (BaseTextInputProps, PropKey, RawValue) -> BaseTextInputProps)
      modifies this
      ensures props.base == baseSetProp(old(props).base, key, value)
      ensures props.fields == SetField(old(props).fields, key, value)
    {
      props := props.(base := baseSetProp(props.base, key, value));
      var f := props.fields;
      match key {
        case AutoComplete =>
          SetFieldAutoComplete(f, value);
          props := props.(fields := f.(autoComplete := FromRawValue(value, "", ParseString)));
        case ReturnKeyLabel =>
          SetFieldReturnKeyLabel(f, value);
          props := props.(fields := f.(returnKeyLabel := FromRawValue(value, "", ParseString)));
        case NumberOfLines =>
          SetFieldNumberOfLines(f, value);
          props := props.(fields := f.(numberOfLines := FromRawValue(value, 0, ParseInt)));
        case DisableFullscreenUI =>
          SetFieldDisableFullscreenUI(f, value);
          props := props.(fields := f.(disableFullscreenUI := FromRawValue(value, false, ParseBool)));
        case TextBreakStrategy =>
          SetFieldTextBreakStrategy(f, value);
          props := props.(fields := f.(textBreakStrategy := FromRawValue(value, "", ParseString)));
        case InlineImageLeft =>
          SetFieldInlineImageLeft(f, value);
          props := props.(fields := f.(inlineImageLeft := FromRawValue(value, "", ParseString)));
        case InlineImagePadding =>
          SetFieldInlineImagePadding(f, value);
          props := props.(fields := f.(inlineImagePadding := FromRawValue(value, 0, ParseInt)));
        case ImportantForAutofill =>
          SetFieldImportantForAutofill(f, value);
          props := props.(fields := f.(importantForAutofill := FromRawValue(value, "", ParseString)));
        case ShowSoftInputOnFocus =>
          SetFieldShowSoftInputOnFocus(f, value);
          props := props.(fields := f.(showSoftInputOnFocus := FromRawValue(value, false, ParseBool)));
        case AutoCorrect =>
          SetFieldAutoCorrect(f, value);
          props := props.(fields := f.(autoCorrect := FromRawValue(value, false, ParseBool)));
        case AllowFontScaling =>
          SetFieldAllowFontScaling(f, value);
          props := props.(fields := f.(allowFontScaling := FromRawValue(value, false, ParseBool)));
        case MaxFontSizeMultiplier =>
          SetFieldMaxFontSizeMultiplier(f, value);
          props := props.(fields := f.(maxFontSizeMultiplier := FromRawValue(value, 0.0, ParseFloat)));
        case KeyboardType =>
          SetFieldKeyboardType(f, value);
          props := props.(fields := f.(keyboardType := FromRawValue(value, "", ParseString)));
        case ReturnKeyType =>
          SetFieldReturnKeyType(f, value);
          props := props.(fields := f.(returnKeyType := FromRawValue(value, "", ParseString)));
        case SecureTextEntry =>
          SetFieldSecureTextEntry(f, value);
          props := props.(fields := f.(secureTextEntry := FromRawValue(value, false, ParseBool)));
        case SelectTextOnFocus =>
          SetFieldSelectTextOnFocus(f, value);
          props := props.(fields := f.(selectTextOnFocus := FromRawValue(value, false, ParseBool)));
        case CaretHidden =>
          SetFieldCaretHidden(f, value);
          props := props.(fields := f.(caretHidden := FromRawValue(value, false, ParseBool)));
        case ContextMenuHidden =>
          SetFieldContextMenuHidden(f, value);
          props := props.(fields := f.(contextMenuHidden := FromRawValue(value, false, ParseBool)));
        case TextShadowColor =>
          SetFieldTextShadowColor(f, value);
          props := props.(fields := f.(textShadowColor := FromRawValue(value, None, ParseColor)));
        case TextShadowRadius =>
          SetFieldTextShadowRadius(f, value);
          props := props.(fields := f.(textShadowRadius := FromRawValue(value, 0.0, ParseFloat)));
        case TextDecorationLine =>
          SetFieldTextDecorationLine(f, value);
          props := props.(fields := f.(textDecorationLine := FromRawValue(value, "", ParseString)));
        case FontStyle =>
          SetFieldFontStyle(f, value);
          props := props.(fields := f.(fontStyle := FromRawValue(value, "", ParseString)));
        case TextShadowOffset =>
          SetFieldTextShadowOffset(f, value);
          props := props.(fields := f.(textShadowOffset := FromRawValue(value, Size(0.0, 0.0), ParseSize)));
        case LineHeight =>
          SetFieldLineHeight(f, value);
          props := props.(fields := f.(lineHeight := FromRawValue(value, 0.0, ParseFloat)));
        case TextTransform =>
          SetFieldTextTransform(f, value);
          props := props.(fields := f.(textTransform := FromRawValue(value, "", ParseString)));
        case LetterSpacing =>
          SetFieldLetterSpacing(f, value);
          props := props.(fields := f.(letterSpacing := FromRawValue(value, 0.0, ParseFloat)));
        case FontSize =>
          SetFieldFontSize(f, value);
          props := props.(fields := f.(fontSize := FromRawValue(value, 0.0, ParseFloat)));
        case TextAlign =>
          SetFieldTextAlign(f, value);
          props := props.(fields := f.(textAlign := FromRawValue(value, "", ParseString)));
        case IncludeFontPadding =>
          SetFieldIncludeFontPadding(f, value);
          props := props.(fields := f.(includeFontPadding := FromRawValue(value, false, ParseBool)));
        case FontWeight =>
          SetFieldFontWeight(f, value);
          props := props.(fields := f.(fontWeight := FromRawValue(value, "", ParseString)));
        case FontFamily =>
          SetFieldFontFamily(f, value);
          props := props.(fields := f.(fontFamily := FromRawValue(value, "", ParseString)));
        case Value =>
          SetFieldValue(f, value);
          props := props.(fields := f.(value := FromRawValue(value, "", ParseString)));
        case Color =>
          SetFieldIgnoresUndeclared(f, key, value);
        case Padding =>
          SetFieldPadding(f, value);
          props := props.(fields := f.(hasPadding := value.HasValue()));
        case PaddingHorizontal =>
          SetFieldPaddingHorizontal(f, value);
          props := props.(fields := f.(hasPaddingHorizontal := value.HasValue()));
        case PaddingVertical =>
          SetFieldPaddingVertical(f, value);
          props := props.(fields := f.(hasPaddingVertical := value.HasValue()));
        case PaddingLeft =>
          SetFieldPaddingLeft(f, value);
          props := props.(fields := f.(hasPaddingLeft := value.HasValue()));
        case PaddingRight =>
          SetFieldPaddingRight(f, value);
          props := props.(fields := f.(hasPaddingRight := value.HasValue()));
        case PaddingTop =>
          SetFieldPaddingTop(f, value);
          props := props.(fields := f.(hasPaddingTop := value.HasValue()));
        case PaddingBottom =>
          SetFieldPaddingBottom(f, value);
          props := props.(fields := f.(hasPaddingBottom := value.HasValue()));
        case PaddingStart =>
          SetFieldPaddingStart(f, value);
          props := props.(fields := f.(hasPaddingStart := value.HasValue()));
        case PaddingEnd =>
          SetFieldPaddingEnd(f, value);
          props := props.(fields := f.(hasPaddingEnd := value.HasValue()));
        case Other(_) =>
          SetFieldIgnoresUndeclared(f, key, value);
      }
    }
  }

  /**
   * The entries of a raw bag fed to the setter one after another, in the
   * order the props parser visits them.
   */
  function ApplyUpdates(f: AndroidTextInputFields, updates: seq<(PropKey, RawValue)>): AndroidTextInputFields
    decreases |updates|
  {
    if updates == [] then f
    else
      var last := updates[|updates| - 1];
      SetField(ApplyUpdates(f, updates[..|updates| - 1]), last.0, last.1)
  }

  /** The bag the entries make on top of `raw`: a later entry for a key replaces an earlier one. */
  function BagOnto(raw: RawPropBag, updates: seq<(PropKey, RawValue)>): RawPropBag
    decreases |updates|
  {
    if updates == [] then raw
    else
      var last := updates[|updates| - 1];
      BagOnto(raw, updates[..|updates| - 1])[last.0 := last.1]
  }

  /** The bag the entries make on their own. */
  function BagOf(updates: seq<(PropKey, RawValue)>): RawPropBag {
    BagOnto(map[], updates)
  }

  /**
   * Feeding entries to the setter after a bulk conversion is the bulk
   * conversion of the bag with those entries in it.
   */
  lemma {:induction false} StreamingMatchesBulk(source: AndroidTextInputFields, raw: RawPropBag,
                                                updates: seq<(PropKey, RawValue)>)
    ensures ApplyUpdates(ConvertFields(source, raw), updates) == ConvertFields(source, BagOnto(raw, updates))
    decreases |updates|
  {
    if updates != [] {
      var init, last := updates[..|updates| - 1], updates[|updates| - 1];
      StreamingMatchesBulk(source, raw, init);
      SetAfterConvert(source, BagOnto(raw, init), last.0, last.1);
    }
  }

  /** Converting against an empty bag keeps every field but the legacy color. */
  lemma ConvertEmptyIsCopy(source: AndroidTextInputFields)
    ensures ConvertFields(source, map[]) == CopyFields(source)
  {
  }

  /**
   * With the corrected copy, the two constructor modes agree: copying the
   * source record and then feeding the bag's entries to the setter gives this
   * layer the same fields as converting the whole bag at once.
   *
   * The agreement rests on two properties of the conversions that are
   * stand-ins here: the setter's conversion of a payload that does not parse
   * falls back to the same static default as the constructor's
   * `convertRawProp`, and the setter's value on null (the field of the
   * default-constructed record, line 203) equals the literal default the
   * constructor passes. Both hold by construction of `FromRawValue`,
   * `SetField` and `StaticDefaults`; the source's own parsers and header
   * are not part of this model.
   */
  lemma ModesAgree(source: AndroidTextInputProps, updates: seq<(PropKey, RawValue)>,
                   baseCtor: (BaseTextInputProps, RawPropBag) -> BaseTextInputProps)
    ensures ApplyUpdates(Construct(true, source, BagOf(updates), baseCtor).fields, updates)
         == Construct(false, source, BagOf(updates), baseCtor).fields
  {
    ConvertEmptyIsCopy(source.fields);
    StreamingMatchesBulk(source.fields, map[], updates);
  }

  /**
   * The constructor as written breaks that agreement: a previous record whose
   * `autoComplete` is "email" and whose `returnKeyLabel` is "go", rebuilt from
   * a bag that does not mention `returnKeyLabel`, keeps "go" with the flag off
   * but gets "email" with the flag on, and no setter call repairs it.
   */
  lemma AsWrittenModesDisagree()
    ensures var source := AndroidTextInputProps(BaseDefaults, StaticDefaults.(autoComplete := "email", returnKeyLabel := "go"));
            var baseCtor := (b: BaseTextInputProps, raw: RawPropBag) => b;
            && ApplyUpdates(ConstructAsWritten(true, source, BagOf([]), baseCtor).fields, []).returnKeyLabel == "email"
            && ConstructAsWritten(false, source, BagOf([]), baseCtor).fields.returnKeyLabel == "go"
  {
  }
}
