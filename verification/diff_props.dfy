/**
 * `getDiffProps`: the sparse patch of the fields that changed since the
 * previous record, on top of the view layer's patch. The source's run of
 * comparisons is kept as a table, split into short runs in source order
 * (the split has no counterpart in the source), and the patch is that
 * table replayed onto the view layer's patch.
 */
module DiffProps {
  import opened Wrappers
  import opened RawProps
  import opened Conversions
  import opened TextInputProps
  import opened Patches

  /** The tolerance of `floatEquality`. */
  const FloatEpsilon: real := 0.005

  /** `floatEquality`: the two values are closer than the tolerance. */
  predicate FloatEquality(a: real, b: real) {
    -FloatEpsilon < a - b < FloatEpsilon
  }

  /**
   * The value a color field is written as. The source dereferences the
   * optional color without checking it; GetDiffProps requires it to be
   * present wherever it is written, so the `VNull` here is never emitted.
   */
  function ColorValue(c: SharedColor): Val {
    if c.Some? then VInt(c.value) else VNull
  }

  /** `textAlignVertical`: null when absent, else the enum's name. */
  function AlignmentValue(a: Option<TextAlignVertical>): Val {
    if a.None? then VNull else VString(TextAlignVerticalName(a.value))
  }

  /** `acceptDragAndDropTypes`: null when absent, else an array of strings. */
  function TypesValue(t: Option<seq<string>>): Val {
    if t.None? then VNull else VArray(seq(|t.value|, i requires 0 <= i < |t.value| => VString(t.value[i])))
  }

  /** `toDynamic(textShadowOffset)`: an object with the width and the height. */
  function SizeValue(s: Size): Val {
    VObject(map["width" := VReal(s.width), "height" := VReal(s.height)])
  }

  /** Every color the source dereferences because it changed is present. */
  predicate ColorDerefsSafe(cur: AndroidTextInputProps, prior: AndroidTextInputProps) {
    && (cur.base.placeholderTextColor != prior.base.placeholderTextColor ==> cur.base.placeholderTextColor.Some?)
    && (cur.base.cursorColor != prior.base.cursorColor ==> cur.base.cursorColor.Some?)
    && (cur.base.selectionColor != prior.base.selectionColor ==> cur.base.selectionColor.Some?)
    && (cur.base.selectionHandleColor != prior.base.selectionHandleColor ==> cur.base.selectionHandleColor.Some?)
    && (cur.base.underlineColorAndroid != prior.base.underlineColorAndroid ==> cur.base.underlineColorAndroid.Some?)
    && (cur.fields.textShadowColor != prior.fields.textShadowColor ==> cur.fields.textShadowColor.Some?)
  }

  // Base text input paragraph props

  /** The comparisons of `numberOfLines` (from `maximumNumberOfLines`), `ellipsizeMode` and `textBreakStrategy` of the paragraph attributes. */
  function LineBreakingComparisons(cur: AndroidTextInputProps, prior: AndroidTextInputProps): seq<Comparison> {
    [
      Comparison(Own(NumberOfLines), cur.base.paragraphAttributes.maximumNumberOfLines != prior.base.paragraphAttributes.maximumNumberOfLines,
        VInt(cur.base.paragraphAttributes.maximumNumberOfLines)),
      Comparison(EllipsizeModeKey, cur.base.paragraphAttributes.ellipsizeMode != prior.base.paragraphAttributes.ellipsizeMode,
        VString(EllipsizeModeName(cur.base.paragraphAttributes.ellipsizeMode))),
      Comparison(Own(TextBreakStrategy), cur.base.paragraphAttributes.textBreakStrategy != prior.base.paragraphAttributes.textBreakStrategy,
        VString(TextBreakStrategyName(cur.base.paragraphAttributes.textBreakStrategy)))
    ]
  }

  /** The comparisons of `adjustsFontSizeToFit`, `minimumFontSize` and `maximumFontSize` of the paragraph attributes, the sizes compared with `floatEquality`. */
  function FontSizingComparisons(cur: AndroidTextInputProps, prior: AndroidTextInputProps): seq<Comparison> {
    [
      Comparison(AdjustsFontSizeToFitKey, cur.base.paragraphAttributes.adjustsFontSizeToFit != prior.base.paragraphAttributes.adjustsFontSizeToFit,
        VBool(cur.base.paragraphAttributes.adjustsFontSizeToFit)),
      Comparison(MinimumFontSizeKey, !FloatEquality(cur.base.paragraphAttributes.minimumFontSize, prior.base.paragraphAttributes.minimumFontSize),
        VReal(cur.base.paragraphAttributes.minimumFontSize)),
      Comparison(MaximumFontSizeKey, !FloatEquality(cur.base.paragraphAttributes.maximumFontSize, prior.base.paragraphAttributes.maximumFontSize),
        VReal(cur.base.paragraphAttributes.maximumFontSize))
    ]
  }

  /** The comparisons of `includeFontPadding`, `android_hyphenationFrequency` and `textAlignVertical` of the paragraph attributes; an absent `textAlignVertical` is written as null. */
  function ParagraphLayoutComparisons(cur: AndroidTextInputProps, prior: AndroidTextInputProps): seq<Comparison> {
    [
      Comparison(Own(IncludeFontPadding), cur.base.paragraphAttributes.includeFontPadding != prior.base.paragraphAttributes.includeFontPadding,
        VBool(cur.base.paragraphAttributes.includeFontPadding)),
      Comparison(HyphenationFrequencyKey, cur.base.paragraphAttributes.hyphenationFrequency != prior.base.paragraphAttributes.hyphenationFrequency,
        VString(HyphenationFrequencyName(cur.base.paragraphAttributes.hyphenationFrequency))),
      Comparison(TextAlignVerticalKey, cur.base.paragraphAttributes.textAlignVertical != prior.base.paragraphAttributes.textAlignVertical,
        AlignmentValue(cur.base.paragraphAttributes.textAlignVertical))
    ]
  }

  // Base text input props

  /** The comparisons of `defaultValue` and `placeholder`. */
  function InitialTextComparisons(cur: AndroidTextInputProps, prior: AndroidTextInputProps): seq<Comparison> {
    [
      Comparison(DefaultValueKey, cur.base.defaultValue != prior.base.defaultValue,
        VString(cur.base.defaultValue)),
      Comparison(PlaceholderKey, cur.base.placeholder != prior.base.placeholder,
        VString(cur.base.placeholder))
    ]
  }

  /** The comparisons of the five colors of the base props, each written dereferenced. */
  function ColorsComparisons(cur: AndroidTextInputProps, prior: AndroidTextInputProps): seq<Comparison> {
    [
      Comparison(PlaceholderTextColorKey, cur.base.placeholderTextColor != prior.base.placeholderTextColor,
        ColorValue(cur.base.placeholderTextColor)),
      Comparison(CursorColorKey, cur.base.cursorColor != prior.base.cursorColor,
        ColorValue(cur.base.cursorColor)),
      Comparison(SelectionColorKey, cur.base.selectionColor != prior.base.selectionColor,
        ColorValue(cur.base.selectionColor)),
      Comparison(SelectionHandleColorKey, cur.base.selectionHandleColor != prior.base.selectionHandleColor,
        ColorValue(cur.base.selectionHandleColor)),
      Comparison(UnderlineColorAndroidKey, cur.base.underlineColorAndroid != prior.base.underlineColorAndroid,
        ColorValue(cur.base.underlineColorAndroid))
    ]
  }

  /** The comparisons of `maxLength`, `text` and `mostRecentEventCount`. */
  function ContentComparisons(cur: AndroidTextInputProps, prior: AndroidTextInputProps): seq<Comparison> {
    [
      Comparison(MaxLengthKey, cur.base.maxLength != prior.base.maxLength,
        VInt(cur.base.maxLength)),
      Comparison(TextKey, cur.base.text != prior.base.text,
        VString(cur.base.text)),
      Comparison(MostRecentEventCountKey, cur.base.mostRecentEventCount != prior.base.mostRecentEventCount,
        VInt(cur.base.mostRecentEventCount))
    ]
  }

  /** The comparisons of `autoFocus`, `autoCapitalize`, `editable` and `readOnly`. */
  function EditingComparisons(cur: AndroidTextInputProps, prior: AndroidTextInputProps): seq<Comparison> {
    [
      Comparison(AutoFocusKey, cur.base.autoFocus != prior.base.autoFocus,
        VBool(cur.base.autoFocus)),
      Comparison(AutoCapitalizeKey, cur.base.autoCapitalize != prior.base.autoCapitalize,
        VString(cur.base.autoCapitalize)),
      Comparison(EditableKey, cur.base.editable != prior.base.editable,
        VBool(cur.base.editable)),
      Comparison(ReadOnlyKey, cur.base.readOnly != prior.base.readOnly,
        VBool(cur.base.readOnly))
    ]
  }

  /** The comparisons of `submitBehavior`, `multiline`, `disableKeyboardShortcuts` and `acceptDragAndDropTypes` (null when absent). */
  function SubmissionComparisons(cur: AndroidTextInputProps, prior: AndroidTextInputProps): seq<Comparison> {
    [
      Comparison(SubmitBehaviorKey, cur.base.submitBehavior != prior.base.submitBehavior,
        VString(SubmitBehaviorName(cur.base.submitBehavior))),
      Comparison(MultilineKey, cur.base.multiline != prior.base.multiline,
        VBool(cur.base.multiline)),
      Comparison(DisableKeyboardShortcutsKey, cur.base.disableKeyboardShortcuts != prior.base.disableKeyboardShortcuts,
        VBool(cur.base.disableKeyboardShortcuts)),
      Comparison(AcceptDragAndDropTypesKey, cur.base.acceptDragAndDropTypes != prior.base.acceptDragAndDropTypes,
        TypesValue(cur.base.acceptDragAndDropTypes))
    ]
  }

  // Android text input props

  /** The comparisons of `autoComplete`, `returnKeyLabel`, `numberOfLines` and `disableFullscreenUI` of this layer. */
  function AutofillComparisons(cur: AndroidTextInputProps, prior: AndroidTextInputProps): seq<Comparison> {
    [
      Comparison(Own(AutoComplete), cur.fields.autoComplete != prior.fields.autoComplete,
        VString(cur.fields.autoComplete)),
      Comparison(Own(ReturnKeyLabel), cur.fields.returnKeyLabel != prior.fields.returnKeyLabel,
        VString(cur.fields.returnKeyLabel)),
      Comparison(Own(NumberOfLines), cur.fields.numberOfLines != prior.fields.numberOfLines,
        VInt(cur.fields.numberOfLines)),
      Comparison(Own(DisableFullscreenUI), cur.fields.disableFullscreenUI != prior.fields.disableFullscreenUI,
        VBool(cur.fields.disableFullscreenUI))
    ]
  }

  /** The comparisons of `textBreakStrategy` of this layer, `inlineImageLeft`, `inlineImagePadding` and `importantForAutofill`. */
  function InlineImageComparisons(cur: AndroidTextInputProps, prior: AndroidTextInputProps): seq<Comparison> {
    [
      Comparison(Own(TextBreakStrategy), cur.fields.textBreakStrategy != prior.fields.textBreakStrategy,
        VString(cur.fields.textBreakStrategy)),
      Comparison(Own(InlineImageLeft), cur.fields.inlineImageLeft != prior.fields.inlineImageLeft,
        VString(cur.fields.inlineImageLeft)),
      Comparison(Own(InlineImagePadding), cur.fields.inlineImagePadding != prior.fields.inlineImagePadding,
        VInt(cur.fields.inlineImagePadding)),
      Comparison(Own(ImportantForAutofill), cur.fields.importantForAutofill != prior.fields.importantForAutofill,
        VString(cur.fields.importantForAutofill))
    ]
  }

  /** The comparisons of `showSoftInputOnFocus`, `autoCorrect`, `allowFontScaling` and `maxFontSizeMultiplier`. */
  function InputBehaviourComparisons(cur: AndroidTextInputProps, prior: AndroidTextInputProps): seq<Comparison> {
    [
      Comparison(Own(ShowSoftInputOnFocus), cur.fields.showSoftInputOnFocus != prior.fields.showSoftInputOnFocus,
        VBool(cur.fields.showSoftInputOnFocus)),
      Comparison(Own(AutoCorrect), cur.fields.autoCorrect != prior.fields.autoCorrect,
        VBool(cur.fields.autoCorrect)),
      Comparison(Own(AllowFontScaling), cur.fields.allowFontScaling != prior.fields.allowFontScaling,
        VBool(cur.fields.allowFontScaling)),
      Comparison(Own(MaxFontSizeMultiplier), cur.fields.maxFontSizeMultiplier != prior.fields.maxFontSizeMultiplier,
        VReal(cur.fields.maxFontSizeMultiplier))
    ]
  }

  /** The comparisons of `keyboardType`, `returnKeyType`, `secureTextEntry` and `value`. */
  function KeyboardComparisons(cur: AndroidTextInputProps, prior: AndroidTextInputProps): seq<Comparison> {
    [
      Comparison(Own(KeyboardType), cur.fields.keyboardType != prior.fields.keyboardType,
        VString(cur.fields.keyboardType)),
      Comparison(Own(ReturnKeyType), cur.fields.returnKeyType != prior.fields.returnKeyType,
        VString(cur.fields.returnKeyType)),
      Comparison(Own(SecureTextEntry), cur.fields.secureTextEntry != prior.fields.secureTextEntry,
        VBool(cur.fields.secureTextEntry)),
      Comparison(Own(Value), cur.fields.value != prior.fields.value,
        VString(cur.fields.value))
    ]
  }

  /** The comparisons of `selectTextOnFocus`, `caretHidden` and `contextMenuHidden`. */
  function SelectionComparisons(cur: AndroidTextInputProps, prior: AndroidTextInputProps): seq<Comparison> {
    [
      Comparison(Own(SelectTextOnFocus), cur.fields.selectTextOnFocus != prior.fields.selectTextOnFocus,
        VBool(cur.fields.selectTextOnFocus)),
      Comparison(Own(CaretHidden), cur.fields.caretHidden != prior.fields.caretHidden,
        VBool(cur.fields.caretHidden)),
      Comparison(Own(ContextMenuHidden), cur.fields.contextMenuHidden != prior.fields.contextMenuHidden,
        VBool(cur.fields.contextMenuHidden))
    ]
  }

  /** The comparisons of `textShadowColor` (dereferenced), `textShadowRadius`, `textDecorationLine`, `fontStyle` and `textShadowOffset`. */
  function TextShadowComparisons(cur: AndroidTextInputProps, prior: AndroidTextInputProps): seq<Comparison> {
    [
      Comparison(Own(TextShadowColor), cur.fields.textShadowColor != prior.fields.textShadowColor,
        ColorValue(cur.fields.textShadowColor)),
      Comparison(Own(TextShadowRadius), cur.fields.textShadowRadius != prior.fields.textShadowRadius,
        VReal(cur.fields.textShadowRadius)),
      Comparison(Own(TextDecorationLine), cur.fields.textDecorationLine != prior.fields.textDecorationLine,
        VString(cur.fields.textDecorationLine)),
      Comparison(Own(FontStyle), cur.fields.fontStyle != prior.fields.fontStyle,
        VString(cur.fields.fontStyle)),
      Comparison(Own(TextShadowOffset), cur.fields.textShadowOffset != prior.fields.textShadowOffset,
        SizeValue(cur.fields.textShadowOffset))
    ]
  }

  /** The comparisons of `lineHeight`, `textTransform`, `letterSpacing` and `fontSize`. */
  function TextMetricsComparisons(cur: AndroidTextInputProps, prior: AndroidTextInputProps): seq<Comparison> {
    [
      Comparison(Own(LineHeight), cur.fields.lineHeight != prior.fields.lineHeight,
        VReal(cur.fields.lineHeight)),
      Comparison(Own(TextTransform), cur.fields.textTransform != prior.fields.textTransform,
        VString(cur.fields.textTransform)),
      Comparison(Own(LetterSpacing), cur.fields.letterSpacing != prior.fields.letterSpacing,
        VReal(cur.fields.letterSpacing)),
      Comparison(Own(FontSize), cur.fields.fontSize != prior.fields.fontSize,
        VReal(cur.fields.fontSize))
    ]
  }

  /** The comparisons of `textAlign`, `includeFontPadding` of this layer, `fontWeight` and `fontFamily`. */
  function FontComparisons(cur: AndroidTextInputProps, prior: AndroidTextInputProps): seq<Comparison> {
    [
      Comparison(Own(TextAlign), cur.fields.textAlign != prior.fields.textAlign,
        VString(cur.fields.textAlign)),
      Comparison(Own(IncludeFontPadding), cur.fields.includeFontPadding != prior.fields.includeFontPadding,
        VBool(cur.fields.includeFontPadding)),
      Comparison(Own(FontWeight), cur.fields.fontWeight != prior.fields.fontWeight,
        VString(cur.fields.fontWeight)),
      Comparison(Own(FontFamily), cur.fields.fontFamily != prior.fields.fontFamily,
        VString(cur.fields.fontFamily))
    ]
  }

  /** Every comparison of `getDiffProps` after the view layer's, in source order. */
  function Comparisons(cur: AndroidTextInputProps, prior: AndroidTextInputProps): seq<Comparison> {
    LineBreakingComparisons(cur, prior)
    + FontSizingComparisons(cur, prior)
    + ParagraphLayoutComparisons(cur, prior)
    + InitialTextComparisons(cur, prior)
    + ColorsComparisons(cur, prior)
    + ContentComparisons(cur, prior)
    + EditingComparisons(cur, prior)
    + SubmissionComparisons(cur, prior)
    + AutofillComparisons(cur, prior)
    + InlineImageComparisons(cur, prior)
    + InputBehaviourComparisons(cur, prior)
    + KeyboardComparisons(cur, prior)
    + SelectionComparisons(cur, prior)
    + TextShadowComparisons(cur, prior)
    + TextMetricsComparisons(cur, prior)
    + FontComparisons(cur, prior)
  }

  /**
   * The patch of `cur` against `prior`, given the view layer's patch: the
   * comparisons replayed, in order, onto the view layer's patch.
   */
  function DiffAgainst(cur: AndroidTextInputProps, prior: AndroidTextInputProps,
                       viewDiff: (AndroidTextInputProps, AndroidTextInputProps) -> Patch): Patch
  {
    Replay(viewDiff(cur, prior), Comparisons(cur, prior))
  }

  /** The runs of comparisons replayed onto `m` one run after another, as `getDiffProps` performs them. */
  function RunByRun(m: Patch, cur: AndroidTextInputProps, prior: AndroidTextInputProps): Patch {
    var m := Replay(m, LineBreakingComparisons(cur, prior));
    var m := Replay(m, FontSizingComparisons(cur, prior));
    var m := Replay(m, ParagraphLayoutComparisons(cur, prior));
    var m := Replay(m, InitialTextComparisons(cur, prior));
    var m := Replay(m, ColorsComparisons(cur, prior));
    var m := Replay(m, ContentComparisons(cur, prior));
    var m := Replay(m, EditingComparisons(cur, prior));
    var m := Replay(m, SubmissionComparisons(cur, prior));
    var m := Replay(m, AutofillComparisons(cur, prior));
    var m := Replay(m, InlineImageComparisons(cur, prior));
    var m := Replay(m, InputBehaviourComparisons(cur, prior));
    var m := Replay(m, KeyboardComparisons(cur, prior));
    var m := Replay(m, SelectionComparisons(cur, prior));
    var m := Replay(m, TextShadowComparisons(cur, prior));
    var m := Replay(m, TextMetricsComparisons(cur, prior));
    var m := Replay(m, FontComparisons(cur, prior));
    m
  }

  /** Replaying all comparisons at once is replaying them run by run. */
  lemma DiffInGroups(cur: AndroidTextInputProps, prior: AndroidTextInputProps, m: Patch)
    ensures Replay(m, Comparisons(cur, prior)) == RunByRun(m, cur, prior)
  {
    var s := LineBreakingComparisons(cur, prior);
    ReplayAppend(m, s, FontSizingComparisons(cur, prior));
    s := s + FontSizingComparisons(cur, prior);
    ReplayAppend(m, s, ParagraphLayoutComparisons(cur, prior));
    s := s + ParagraphLayoutComparisons(cur, prior);
    ReplayAppend(m, s, InitialTextComparisons(cur, prior));
    s := s + InitialTextComparisons(cur, prior);
    ReplayAppend(m, s, ColorsComparisons(cur, prior));
    s := s + ColorsComparisons(cur, prior);
    ReplayAppend(m, s, ContentComparisons(cur, prior));
    s := s + ContentComparisons(cur, prior);
    ReplayAppend(m, s, EditingComparisons(cur, prior));
    s := s + EditingComparisons(cur, prior);
    ReplayAppend(m, s, SubmissionComparisons(cur, prior));
    s := s + SubmissionComparisons(cur, prior);
    ReplayAppend(m, s, AutofillComparisons(cur, prior));
    s := s + AutofillComparisons(cur, prior);
    ReplayAppend(m, s, InlineImageComparisons(cur, prior));
    s := s + InlineImageComparisons(cur, prior);
    ReplayAppend(m, s, InputBehaviourComparisons(cur, prior));
    s := s + InputBehaviourComparisons(cur, prior);
    ReplayAppend(m, s, KeyboardComparisons(cur, prior));
    s := s + KeyboardComparisons(cur, prior);
    ReplayAppend(m, s, SelectionComparisons(cur, prior));
    s := s + SelectionComparisons(cur, prior);
    ReplayAppend(m, s, TextShadowComparisons(cur, prior));
    s := s + TextShadowComparisons(cur, prior);
    ReplayAppend(m, s, TextMetricsComparisons(cur, prior));
    s := s + TextMetricsComparisons(cur, prior);
    ReplayAppend(m, s, FontComparisons(cur, prior));
    s := s + FontComparisons(cur, prior);
  }

  /** Writes the changed fields among `numberOfLines` (from `maximumNumberOfLines`), `ellipsizeMode` and `textBreakStrategy` of the paragraph attributes. */
  method CompareLineBreaking(cur: AndroidTextInputProps, oldProps: AndroidTextInputProps, patch: Patch)
    returns (result: Patch)
    ensures result == Replay(patch, LineBreakingComparisons(cur, oldProps))
  {
    ghost var cs := LineBreakingComparisons(cur, oldProps);
    result := patch;
    if cur.base.paragraphAttributes.maximumNumberOfLines != oldProps.base.paragraphAttributes.maximumNumberOfLines {
      result := result[Own(NumberOfLines) := VInt(cur.base.paragraphAttributes.maximumNumberOfLines)];
    }
    assert result == ReplayFirst(patch, cs, 1);
    if cur.base.paragraphAttributes.ellipsizeMode != oldProps.base.paragraphAttributes.ellipsizeMode {
      result := result[EllipsizeModeKey := VString(EllipsizeModeName(cur.base.paragraphAttributes.ellipsizeMode))];
    }
    assert result == ReplayFirst(patch, cs, 2);
    if cur.base.paragraphAttributes.textBreakStrategy != oldProps.base.paragraphAttributes.textBreakStrategy {
      result := result[Own(TextBreakStrategy) := VString(TextBreakStrategyName(cur.base.paragraphAttributes.textBreakStrategy))];
    }
    assert result == ReplayFirst(patch, cs, 3);
  }

  /** Writes the changed fields among `adjustsFontSizeToFit`, `minimumFontSize` and `maximumFontSize` of the paragraph attributes. */
  method CompareFontSizing(cur: AndroidTextInputProps, oldProps: AndroidTextInputProps, patch: Patch)
    returns (result: Patch)
    ensures result == Replay(patch, FontSizingComparisons(cur, oldProps))
  {
    ghost var cs := FontSizingComparisons(cur, oldProps);
    result := patch;
    if cur.base.paragraphAttributes.adjustsFontSizeToFit != oldProps.base.paragraphAttributes.adjustsFontSizeToFit {
      result := result[AdjustsFontSizeToFitKey := VBool(cur.base.paragraphAttributes.adjustsFontSizeToFit)];
    }
    assert result == ReplayFirst(patch, cs, 1);
    if !FloatEquality(cur.base.paragraphAttributes.minimumFontSize, oldProps.base.paragraphAttributes.minimumFontSize) {
      result := result[MinimumFontSizeKey := VReal(cur.base.paragraphAttributes.minimumFontSize)];
    }
    assert result == ReplayFirst(patch, cs, 2);
    if !FloatEquality(cur.base.paragraphAttributes.maximumFontSize, oldProps.base.paragraphAttributes.maximumFontSize) {
      result := result[MaximumFontSizeKey := VReal(cur.base.paragraphAttributes.maximumFontSize)];
    }
    assert result == ReplayFirst(patch, cs, 3);
  }

  /** Writes the changed fields among `includeFontPadding`, `android_hyphenationFrequency` and `textAlignVertical` of the paragraph attributes. */
  method CompareParagraphLayout(cur: AndroidTextInputProps, oldProps: AndroidTextInputProps, patch: Patch)
    returns (result: Patch)
    ensures result == Replay(patch, ParagraphLayoutComparisons(cur, oldProps))
  {
    ghost var cs := ParagraphLayoutComparisons(cur, oldProps);
    result := patch;
    if cur.base.paragraphAttributes.includeFontPadding != oldProps.base.paragraphAttributes.includeFontPadding {
      result := result[Own(IncludeFontPadding) := VBool(cur.base.paragraphAttributes.includeFontPadding)];
    }
    assert result == ReplayFirst(patch, cs, 1);
    if cur.base.paragraphAttributes.hyphenationFrequency != oldProps.base.paragraphAttributes.hyphenationFrequency {
      result := result[HyphenationFrequencyKey := VString(HyphenationFrequencyName(cur.base.paragraphAttributes.hyphenationFrequency))];
    }
    assert result == ReplayFirst(patch, cs, 2);
    if cur.base.paragraphAttributes.textAlignVertical != oldProps.base.paragraphAttributes.textAlignVertical {
      result := result[TextAlignVerticalKey := AlignmentValue(cur.base.paragraphAttributes.textAlignVertical)];
    }
    assert result == ReplayFirst(patch, cs, 3);
  }

  /** Writes the changed fields among `defaultValue` and `placeholder`. */
  method CompareInitialText(cur: AndroidTextInputProps, oldProps: AndroidTextInputProps, patch: Patch)
    returns (result: Patch)
    ensures result == Replay(patch, InitialTextComparisons(cur, oldProps))
  {
    ghost var cs := InitialTextComparisons(cur, oldProps);
    result := patch;
    if cur.base.defaultValue != oldProps.base.defaultValue {
      result := result[DefaultValueKey := VString(cur.base.defaultValue)];
    }
    assert result == ReplayFirst(patch, cs, 1);
    if cur.base.placeholder != oldProps.base.placeholder {
      result := result[PlaceholderKey := VString(cur.base.placeholder)];
    }
    assert result == ReplayFirst(patch, cs, 2);
  }

  /** Writes the changed fields among the five colors of the base props. */
  method CompareColors(cur: AndroidTextInputProps, oldProps: AndroidTextInputProps, patch: Patch)
    returns (result: Patch)
    requires ColorDerefsSafe(cur, oldProps)
    ensures result == Replay(patch, ColorsComparisons(cur, oldProps))
  {
    ghost var cs := ColorsComparisons(cur, oldProps);
    result := patch;
    if cur.base.placeholderTextColor != oldProps.base.placeholderTextColor {
      result := result[PlaceholderTextColorKey := VInt(cur.base.placeholderTextColor.value)];
    }
    assert result == ReplayFirst(patch, cs, 1);
    if cur.base.cursorColor != oldProps.base.cursorColor {
      result := result[CursorColorKey := VInt(cur.base.cursorColor.value)];
    }
    assert result == ReplayFirst(patch, cs, 2);
    if cur.base.selectionColor != oldProps.base.selectionColor {
      result := result[SelectionColorKey := VInt(cur.base.selectionColor.value)];
    }
    assert result == ReplayFirst(patch, cs, 3);
    if cur.base.selectionHandleColor != oldProps.base.selectionHandleColor {
      result := result[SelectionHandleColorKey := VInt(cur.base.selectionHandleColor.value)];
    }
    assert result == ReplayFirst(patch, cs, 4);
    if cur.base.underlineColorAndroid != oldProps.base.underlineColorAndroid {
      result := result[UnderlineColorAndroidKey := VInt(cur.base.underlineColorAndroid.value)];
    }
    assert result == ReplayFirst(patch, cs, 5);
  }

  /** Writes the changed fields among `maxLength`, `text` and `mostRecentEventCount`. */
  method CompareContent(cur: AndroidTextInputProps, oldProps: AndroidTextInputProps, patch: Patch)
    returns (result: Patch)
    ensures result == Replay(patch, ContentComparisons(cur, oldProps))
  {
    ghost var cs := ContentComparisons(cur, oldProps);
    result := patch;
    if cur.base.maxLength != oldProps.base.maxLength {
      result := result[MaxLengthKey := VInt(cur.base.maxLength)];
    }
    assert result == ReplayFirst(patch, cs, 1);
    if cur.base.text != oldProps.base.text {
      result := result[TextKey := VString(cur.base.text)];
    }
    assert result == ReplayFirst(patch, cs, 2);
    if cur.base.mostRecentEventCount != oldProps.base.mostRecentEventCount {
      result := result[MostRecentEventCountKey := VInt(cur.base.mostRecentEventCount)];
    }
    assert result == ReplayFirst(patch, cs, 3);
  }

  /** Writes the changed fields among `autoFocus`, `autoCapitalize`, `editable` and `readOnly`. */
  method CompareEditing(cur: AndroidTextInputProps, oldProps: AndroidTextInputProps, patch: Patch)
    returns (result: Patch)
    ensures result == Replay(patch, EditingComparisons(cur, oldProps))
  {
    ghost var cs := EditingComparisons(cur, oldProps);
    result := patch;
    if cur.base.autoFocus != oldProps.base.autoFocus {
      result := result[AutoFocusKey := VBool(cur.base.autoFocus)];
    }
    assert result == ReplayFirst(patch, cs, 1);
    if cur.base.autoCapitalize != oldProps.base.autoCapitalize {
      result := result[AutoCapitalizeKey := VString(cur.base.autoCapitalize)];
    }
    assert result == ReplayFirst(patch, cs, 2);
    if cur.base.editable != oldProps.base.editable {
      result := result[EditableKey := VBool(cur.base.editable)];
    }
    assert result == ReplayFirst(patch, cs, 3);
    if cur.base.readOnly != oldProps.base.readOnly {
      result := result[ReadOnlyKey := VBool(cur.base.readOnly)];
    }
    assert result == ReplayFirst(patch, cs, 4);
  }

  /** Writes the changed fields among `submitBehavior`, `multiline`, `disableKeyboardShortcuts` and `acceptDragAndDropTypes` (null when absent). */
  method CompareSubmission(cur: AndroidTextInputProps, oldProps: AndroidTextInputProps, patch: Patch)
    returns (result: Patch)
    ensures result == Replay(patch, SubmissionComparisons(cur, oldProps))
  {
    ghost var cs := SubmissionComparisons(cur, oldProps);
    result := patch;
    if cur.base.submitBehavior != oldProps.base.submitBehavior {
      result := result[SubmitBehaviorKey := VString(SubmitBehaviorName(cur.base.submitBehavior))];
    }
    assert result == ReplayFirst(patch, cs, 1);
    if cur.base.multiline != oldProps.base.multiline {
      result := result[MultilineKey := VBool(cur.base.multiline)];
    }
    assert result == ReplayFirst(patch, cs, 2);
    if cur.base.disableKeyboardShortcuts != oldProps.base.disableKeyboardShortcuts {
      result := result[DisableKeyboardShortcutsKey := VBool(cur.base.disableKeyboardShortcuts)];
    }
    assert result == ReplayFirst(patch, cs, 3);
    if cur.base.acceptDragAndDropTypes != oldProps.base.acceptDragAndDropTypes {
      result := result[AcceptDragAndDropTypesKey := TypesValue(cur.base.acceptDragAndDropTypes)];
    }
    assert result == ReplayFirst(patch, cs, 4);
  }

  /** Writes the changed fields among `autoComplete`, `returnKeyLabel`, `numberOfLines` and `disableFullscreenUI` of this layer. */
  method CompareAutofill(cur: AndroidTextInputProps, oldProps: AndroidTextInputProps, patch: Patch)
    returns (result: Patch)
    ensures result == Replay(patch, AutofillComparisons(cur, oldProps))
  {
    ghost var cs := AutofillComparisons(cur, oldProps);
    result := patch;
    if cur.fields.autoComplete != oldProps.fields.autoComplete {
      result := result[Own(AutoComplete) := VString(cur.fields.autoComplete)];
    }
    assert result == ReplayFirst(patch, cs, 1);
    if cur.fields.returnKeyLabel != oldProps.fields.returnKeyLabel {
      result := result[Own(ReturnKeyLabel) := VString(cur.fields.returnKeyLabel)];
    }
    assert result == ReplayFirst(patch, cs, 2);
    if cur.fields.numberOfLines != oldProps.fields.numberOfLines {
      result := result[Own(NumberOfLines) := VInt(cur.fields.numberOfLines)];
    }
    assert result == ReplayFirst(patch, cs, 3);
    if cur.fields.disableFullscreenUI != oldProps.fields.disableFullscreenUI {
      result := result[Own(DisableFullscreenUI) := VBool(cur.fields.disableFullscreenUI)];
    }
    assert result == ReplayFirst(patch, cs, 4);
  }

  /** Writes the changed fields among `textBreakStrategy` of this layer, `inlineImageLeft`, `inlineImagePadding` and `importantForAutofill`. */
  method CompareInlineImage(cur: AndroidTextInputProps, oldProps: AndroidTextInputProps, patch: Patch)
    returns (result: Patch)
    ensures result == Replay(patch, InlineImageComparisons(cur, oldProps))
  {
    ghost var cs := InlineImageComparisons(cur, oldProps);
    result := patch;
    if cur.fields.textBreakStrategy != oldProps.fields.textBreakStrategy {
      result := result[Own(TextBreakStrategy) := VString(cur.fields.textBreakStrategy)];
    }
    assert result == ReplayFirst(patch, cs, 1);
    if cur.fields.inlineImageLeft != oldProps.fields.inlineImageLeft {
      result := result[Own(InlineImageLeft) := VString(cur.fields.inlineImageLeft)];
    }
    assert result == ReplayFirst(patch, cs, 2);
    if cur.fields.inlineImagePadding != oldProps.fields.inlineImagePadding {
      result := result[Own(InlineImagePadding) := VInt(cur.fields.inlineImagePadding)];
    }
    assert result == ReplayFirst(patch, cs, 3);
    if cur.fields.importantForAutofill != oldProps.fields.importantForAutofill {
      result := result[Own(ImportantForAutofill) := VString(cur.fields.importantForAutofill)];
    }
    assert result == ReplayFirst(patch, cs, 4);
  }

  /** Writes the changed fields among `showSoftInputOnFocus`, `autoCorrect`, `allowFontScaling` and `maxFontSizeMultiplier`. */
  method CompareInputBehaviour(cur: AndroidTextInputProps, oldProps: AndroidTextInputProps, patch: Patch)
    returns (result: Patch)
    ensures result == Replay(patch, InputBehaviourComparisons(cur, oldProps))
  {
    ghost var cs := InputBehaviourComparisons(cur, oldProps);
    result := patch;
    if cur.fields.showSoftInputOnFocus != oldProps.fields.showSoftInputOnFocus {
      result := result[Own(ShowSoftInputOnFocus) := VBool(cur.fields.showSoftInputOnFocus)];
    }
    assert result == ReplayFirst(patch, cs, 1);
    if cur.fields.autoCorrect != oldProps.fields.autoCorrect {
      result := result[Own(AutoCorrect) := VBool(cur.fields.autoCorrect)];
    }
    assert result == ReplayFirst(patch, cs, 2);
    if cur.fields.allowFontScaling != oldProps.fields.allowFontScaling {
      result := result[Own(AllowFontScaling) := VBool(cur.fields.allowFontScaling)];
    }
    assert result == ReplayFirst(patch, cs, 3);
    if cur.fields.maxFontSizeMultiplier != oldProps.fields.maxFontSizeMultiplier {
      result := result[Own(MaxFontSizeMultiplier) := VReal(cur.fields.maxFontSizeMultiplier)];
    }
    assert result == ReplayFirst(patch, cs, 4);
  }

  /** Writes the changed fields among `keyboardType`, `returnKeyType`, `secureTextEntry` and `value`. */
  method CompareKeyboard(cur: AndroidTextInputProps, oldProps: AndroidTextInputProps, patch: Patch)
    returns (result: Patch)
    ensures result == Replay(patch, KeyboardComparisons(cur, oldProps))
  {
    ghost var cs := KeyboardComparisons(cur, oldProps);
    result := patch;
    if cur.fields.keyboardType != oldProps.fields.keyboardType {
      result := result[Own(KeyboardType) := VString(cur.fields.keyboardType)];
    }
    assert result == ReplayFirst(patch, cs, 1);
    if cur.fields.returnKeyType != oldProps.fields.returnKeyType {
      result := result[Own(ReturnKeyType) := VString(cur.fields.returnKeyType)];
    }
    assert result == ReplayFirst(patch, cs, 2);
    if cur.fields.secureTextEntry != oldProps.fields.secureTextEntry {
      result := result[Own(SecureTextEntry) := VBool(cur.fields.secureTextEntry)];
    }
    assert result == ReplayFirst(patch, cs, 3);
    if cur.fields.value != oldProps.fields.value {
      result := result[Own(Value) := VString(cur.fields.value)];
    }
    assert result == ReplayFirst(patch, cs, 4);
  }

  /** Writes the changed fields among `selectTextOnFocus`, `caretHidden` and `contextMenuHidden`. */
  method CompareSelection(cur: AndroidTextInputProps, oldProps: AndroidTextInputProps, patch: Patch)
    returns (result: Patch)
    ensures result == Replay(patch, SelectionComparisons(cur, oldProps))
  {
    ghost var cs := SelectionComparisons(cur, oldProps);
    result := patch;
    if cur.fields.selectTextOnFocus != oldProps.fields.selectTextOnFocus {
      result := result[Own(SelectTextOnFocus) := VBool(cur.fields.selectTextOnFocus)];
    }
    assert result == ReplayFirst(patch, cs, 1);
    if cur.fields.caretHidden != oldProps.fields.caretHidden {
      result := result[Own(CaretHidden) := VBool(cur.fields.caretHidden)];
    }
    assert result == ReplayFirst(patch, cs, 2);
    if cur.fields.contextMenuHidden != oldProps.fields.contextMenuHidden {
      result := result[Own(ContextMenuHidden) := VBool(cur.fields.contextMenuHidden)];
    }
    assert result == ReplayFirst(patch, cs, 3);
  }

  /** Writes the changed fields among `textShadowColor` (dereferenced), `textShadowRadius`, `textDecorationLine`, `fontStyle` and `textShadowOffset`. */
  method CompareTextShadow(cur: AndroidTextInputProps, oldProps: AndroidTextInputProps, patch: Patch)
    returns (result: Patch)
    requires ColorDerefsSafe(cur, oldProps)
    ensures result == Replay(patch, TextShadowComparisons(cur, oldProps))
  {
    ghost var cs := TextShadowComparisons(cur, oldProps);
    result := patch;
    if cur.fields.textShadowColor != oldProps.fields.textShadowColor {
      result := result[Own(TextShadowColor) := VInt(cur.fields.textShadowColor.value)];
    }
    assert result == ReplayFirst(patch, cs, 1);
    if cur.fields.textShadowRadius != oldProps.fields.textShadowRadius {
      result := result[Own(TextShadowRadius) := VReal(cur.fields.textShadowRadius)];
    }
    assert result == ReplayFirst(patch, cs, 2);
    if cur.fields.textDecorationLine != oldProps.fields.textDecorationLine {
      result := result[Own(TextDecorationLine) := VString(cur.fields.textDecorationLine)];
    }
    assert result == ReplayFirst(patch, cs, 3);
    if cur.fields.fontStyle != oldProps.fields.fontStyle {
      result := result[Own(FontStyle) := VString(cur.fields.fontStyle)];
    }
    assert result == ReplayFirst(patch, cs, 4);
    if cur.fields.textShadowOffset != oldProps.fields.textShadowOffset {
      result := result[Own(TextShadowOffset) := SizeValue(cur.fields.textShadowOffset)];
    }
    assert result == ReplayFirst(patch, cs, 5);
  }

  /** Writes the changed fields among `lineHeight`, `textTransform`, `letterSpacing` and `fontSize`. */
  method CompareTextMetrics(cur: AndroidTextInputProps, oldProps: AndroidTextInputProps, patch: Patch)
    returns (result: Patch)
    ensures result == Replay(patch, TextMetricsComparisons(cur, oldProps))
  {
    ghost var cs := TextMetricsComparisons(cur, oldProps);
    result := patch;
    if cur.fields.lineHeight != oldProps.fields.lineHeight {
      result := result[Own(LineHeight) := VReal(cur.fields.lineHeight)];
    }
    assert result == ReplayFirst(patch, cs, 1);
    if cur.fields.textTransform != oldProps.fields.textTransform {
      result := result[Own(TextTransform) := VString(cur.fields.textTransform)];
    }
    assert result == ReplayFirst(patch, cs, 2);
    if cur.fields.letterSpacing != oldProps.fields.letterSpacing {
      result := result[Own(LetterSpacing) := VReal(cur.fields.letterSpacing)];
    }
    assert result == ReplayFirst(patch, cs, 3);
    if cur.fields.fontSize != oldProps.fields.fontSize {
      result := result[Own(FontSize) := VReal(cur.fields.fontSize)];
    }
    assert result == ReplayFirst(patch, cs, 4);
  }

  /** Writes the changed fields among `textAlign`, `includeFontPadding` of this layer, `fontWeight` and `fontFamily`. */
  method CompareFont(cur: AndroidTextInputProps, oldProps: AndroidTextInputProps, patch: Patch)
    returns (result: Patch)
    ensures result == Replay(patch, FontComparisons(cur, oldProps))
  {
    ghost var cs := FontComparisons(cur, oldProps);
    result := patch;
    if cur.fields.textAlign != oldProps.fields.textAlign {
      result := result[Own(TextAlign) := VString(cur.fields.textAlign)];
    }
    assert result == ReplayFirst(patch, cs, 1);
    if cur.fields.includeFontPadding != oldProps.fields.includeFontPadding {
      result := result[Own(IncludeFontPadding) := VBool(cur.fields.includeFontPadding)];
    }
    assert result == ReplayFirst(patch, cs, 2);
    if cur.fields.fontWeight != oldProps.fields.fontWeight {
      result := result[Own(FontWeight) := VString(cur.fields.fontWeight)];
    }
    assert result == ReplayFirst(patch, cs, 3);
    if cur.fields.fontFamily != oldProps.fields.fontFamily {
      result := result[Own(FontFamily) := VString(cur.fields.fontFamily)];
    }
    assert result == ReplayFirst(patch, cs, 4);
  }

  /**
   * `getDiffProps`: the view layer's patch, then one conditional insertion
   * per compared field, in source order. Without a previous record the
   * comparison is against a default-constructed one.
   */
  method GetDiffProps(cur: AndroidTextInputProps, prev: Option<AndroidTextInputProps>,
                      viewDiff: (AndroidTextInputProps, AndroidTextInputProps) -> Patch)
    returns (result: Patch)
    requires ColorDerefsSafe(cur, prev.GetOr(Defaults))
    ensures result == DiffAgainst(cur, prev.GetOr(Defaults), viewDiff)
  {
    var oldProps := if prev.None? then Defaults else prev.value;
    result := viewDiff(cur, oldProps);
    // Base text input paragraph props
    result := CompareLineBreaking(cur, oldProps, result);
    result := CompareFontSizing(cur, oldProps, result);
    result := CompareParagraphLayout(cur, oldProps, result);
    // Base text input props
    result := CompareInitialText(cur, oldProps, result);
    result := CompareColors(cur, oldProps, result);
    result := CompareContent(cur, oldProps, result);
    result := CompareEditing(cur, oldProps, result);
    result := CompareSubmission(cur, oldProps, result);
    // Android text input props
    result := CompareAutofill(cur, oldProps, result);
    result := CompareInlineImage(cur, oldProps, result);
    result := CompareInputBehaviour(cur, oldProps, result);
    result := CompareKeyboard(cur, oldProps, result);
    result := CompareSelection(cur, oldProps, result);
    result := CompareTextShadow(cur, oldProps, result);
    result := CompareTextMetrics(cur, oldProps, result);
    result := CompareFont(cur, oldProps, result);
    DiffInGroups(cur, oldProps, viewDiff(cur, oldProps));
  }
}
