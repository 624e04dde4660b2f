/**
 * What `getDiffProps` promises about the patch: the key rule (a key holds
 * what the last comparison that found a change wrote, and otherwise what the
 * view layer's patch holds); that rule field by field for every key one
 * comparison writes, and for each key two comparisons write; that the keys
 * never compared keep the view layer's value; and that a record diffed
 * against itself adds nothing to the view layer's patch.
 */
module DiffLaws {
  import opened Wrappers
  import opened RawProps
  import opened Conversions
  import opened TextInputProps
  import opened Patches
  import opened DiffProps

  /**
   * The key rule, declaratively: a key that some comparison writes holds the
   * value of the last comparison that writes it.
   */
  lemma DiffHoldsLastWrite(cur: AndroidTextInputProps, prior: AndroidTextInputProps,
      viewDiff: (AndroidTextInputProps, AndroidTextInputProps) -> Patch, k: PatchKey, i: nat)
    requires i < |Comparisons(cur, prior)| && Comparisons(cur, prior)[i].Writes(k)
    requires forall j :: i < j < |Comparisons(cur, prior)| ==> !Comparisons(cur, prior)[j].Writes(k)
    ensures ValueAt(DiffAgainst(cur, prior, viewDiff), k) == Some(Comparisons(cur, prior)[i].emitted)
  {
    ReplayLastWriter(viewDiff(cur, prior), Comparisons(cur, prior), k, i);
  }

  /** The other half: a key no comparison writes holds what the view layer's patch holds. */
  lemma DiffKeepsUnwritten(cur: AndroidTextInputProps, prior: AndroidTextInputProps,
      viewDiff: (AndroidTextInputProps, AndroidTextInputProps) -> Patch, k: PatchKey)
    requires forall i :: 0 <= i < |Comparisons(cur, prior)| ==> !Comparisons(cur, prior)[i].Writes(k)
    ensures ValueAt(DiffAgainst(cur, prior, viewDiff), k) == ValueAt(viewDiff(cur, prior), k)
  {
    ReplayKeeps(viewDiff(cur, prior), Comparisons(cur, prior), k);
  }

  /** Every key the patch holds beyond the view layer's was written by a comparison that found a change. */
  lemma DiffWritesOnlyChanges(cur: AndroidTextInputProps, prior: AndroidTextInputProps,
      viewDiff: (AndroidTextInputProps, AndroidTextInputProps) -> Patch, k: PatchKey)
    requires k in DiffAgainst(cur, prior, viewDiff) && k !in viewDiff(cur, prior)
    ensures exists i :: 0 <= i < |Comparisons(cur, prior)| && Comparisons(cur, prior)[i].Writes(k)
  {
    ReplayValueAt(viewDiff(cur, prior), Comparisons(cur, prior), k);
    LastWriteNone(k, Comparisons(cur, prior), |Comparisons(cur, prior)|);
  }

  // Each run of comparisons on its own: it leaves every key it does not
  // compare under alone, and finds no change between a record and itself.

  lemma LineBreakingKeeps(m: Patch, cur: AndroidTextInputProps, prior: AndroidTextInputProps, k: PatchKey)
    requires k != Own(NumberOfLines) && k != EllipsizeModeKey && k != Own(TextBreakStrategy)
    ensures ValueAt(Replay(m, LineBreakingComparisons(cur, prior)), k) == ValueAt(m, k)
  {
    ReplayKeeps(m, LineBreakingComparisons(cur, prior), k);
  }

  lemma LineBreakingUnchanged(m: Patch, p: AndroidTextInputProps)
    ensures Replay(m, LineBreakingComparisons(p, p)) == m
  {
    ReplayFirstUnchanged(m, LineBreakingComparisons(p, p), |LineBreakingComparisons(p, p)|);
  }

  lemma FontSizingKeeps(m: Patch, cur: AndroidTextInputProps, prior: AndroidTextInputProps, k: PatchKey)
    requires k != AdjustsFontSizeToFitKey && k != MinimumFontSizeKey && k != MaximumFontSizeKey
    ensures ValueAt(Replay(m, FontSizingComparisons(cur, prior)), k) == ValueAt(m, k)
  {
    ReplayKeeps(m, FontSizingComparisons(cur, prior), k);
  }

  lemma FontSizingUnchanged(m: Patch, p: AndroidTextInputProps)
    ensures Replay(m, FontSizingComparisons(p, p)) == m
  {
    ReplayFirstUnchanged(m, FontSizingComparisons(p, p), |FontSizingComparisons(p, p)|);
  }

  lemma ParagraphLayoutKeeps(m: Patch, cur: AndroidTextInputProps, prior: AndroidTextInputProps, k: PatchKey)
    requires k != Own(IncludeFontPadding) && k != HyphenationFrequencyKey && k != TextAlignVerticalKey
    ensures ValueAt(Replay(m, ParagraphLayoutComparisons(cur, prior)), k) == ValueAt(m, k)
  {
    ReplayKeeps(m, ParagraphLayoutComparisons(cur, prior), k);
  }

  lemma ParagraphLayoutUnchanged(m: Patch, p: AndroidTextInputProps)
    ensures Replay(m, ParagraphLayoutComparisons(p, p)) == m
  {
    ReplayFirstUnchanged(m, ParagraphLayoutComparisons(p, p), |ParagraphLayoutComparisons(p, p)|);
  }

  lemma InitialTextKeeps(m: Patch, cur: AndroidTextInputProps, prior: AndroidTextInputProps, k: PatchKey)
    requires k != DefaultValueKey && k != PlaceholderKey
    ensures ValueAt(Replay(m, InitialTextComparisons(cur, prior)), k) == ValueAt(m, k)
  {
    ReplayKeeps(m, InitialTextComparisons(cur, prior), k);
  }

  lemma InitialTextUnchanged(m: Patch, p: AndroidTextInputProps)
    ensures Replay(m, InitialTextComparisons(p, p)) == m
  {
    ReplayFirstUnchanged(m, InitialTextComparisons(p, p), |InitialTextComparisons(p, p)|);
  }

  lemma ColorsKeeps(m: Patch, cur: AndroidTextInputProps, prior: AndroidTextInputProps, k: PatchKey)
    requires k != PlaceholderTextColorKey && k != CursorColorKey && k != SelectionColorKey && k != SelectionHandleColorKey && k != UnderlineColorAndroidKey
    ensures ValueAt(Replay(m, ColorsComparisons(cur, prior)), k) == ValueAt(m, k)
  {
    ReplayKeeps(m, ColorsComparisons(cur, prior), k);
  }

  lemma ColorsUnchanged(m: Patch, p: AndroidTextInputProps)
    ensures Replay(m, ColorsComparisons(p, p)) == m
  {
    ReplayFirstUnchanged(m, ColorsComparisons(p, p), |ColorsComparisons(p, p)|);
  }

  lemma ContentKeeps(m: Patch, cur: AndroidTextInputProps, prior: AndroidTextInputProps, k: PatchKey)
    requires k != MaxLengthKey && k != TextKey && k != MostRecentEventCountKey
    ensures ValueAt(Replay(m, ContentComparisons(cur, prior)), k) == ValueAt(m, k)
  {
    ReplayKeeps(m, ContentComparisons(cur, prior), k);
  }

  lemma ContentUnchanged(m: Patch, p: AndroidTextInputProps)
    ensures Replay(m, ContentComparisons(p, p)) == m
  {
    ReplayFirstUnchanged(m, ContentComparisons(p, p), |ContentComparisons(p, p)|);
  }

  lemma EditingKeeps(m: Patch, cur: AndroidTextInputProps, prior: AndroidTextInputProps, k: PatchKey)
    requires k != AutoFocusKey && k != AutoCapitalizeKey && k != EditableKey && k != ReadOnlyKey
    ensures ValueAt(Replay(m, EditingComparisons(cur, prior)), k) == ValueAt(m, k)
  {
    ReplayKeeps(m, EditingComparisons(cur, prior), k);
  }

  lemma EditingUnchanged(m: Patch, p: AndroidTextInputProps)
    ensures Replay(m, EditingComparisons(p, p)) == m
  {
    ReplayFirstUnchanged(m, EditingComparisons(p, p), |EditingComparisons(p, p)|);
  }

  lemma SubmissionKeeps(m: Patch, cur: AndroidTextInputProps, prior: AndroidTextInputProps, k: PatchKey)
    requires k != SubmitBehaviorKey && k != MultilineKey && k != DisableKeyboardShortcutsKey && k != AcceptDragAndDropTypesKey
    ensures ValueAt(Replay(m, SubmissionComparisons(cur, prior)), k) == ValueAt(m, k)
  {
    ReplayKeeps(m, SubmissionComparisons(cur, prior), k);
  }

  lemma SubmissionUnchanged(m: Patch, p: AndroidTextInputProps)
    ensures Replay(m, SubmissionComparisons(p, p)) == m
  {
    ReplayFirstUnchanged(m, SubmissionComparisons(p, p), |SubmissionComparisons(p, p)|);
  }

  lemma AutofillKeeps(m: Patch, cur: AndroidTextInputProps, prior: AndroidTextInputProps, k: PatchKey)
    requires k != Own(AutoComplete) && k != Own(ReturnKeyLabel) && k != Own(NumberOfLines) && k != Own(DisableFullscreenUI)
    ensures ValueAt(Replay(m, AutofillComparisons(cur, prior)), k) == ValueAt(m, k)
  {
    ReplayKeeps(m, AutofillComparisons(cur, prior), k);
  }

  lemma AutofillUnchanged(m: Patch, p: AndroidTextInputProps)
    ensures Replay(m, AutofillComparisons(p, p)) == m
  {
    ReplayFirstUnchanged(m, AutofillComparisons(p, p), |AutofillComparisons(p, p)|);
  }

  lemma InlineImageKeeps(m: Patch, cur: AndroidTextInputProps, prior: AndroidTextInputProps, k: PatchKey)
    requires k != Own(TextBreakStrategy) && k != Own(InlineImageLeft) && k != Own(InlineImagePadding) && k != Own(ImportantForAutofill)
    ensures ValueAt(Replay(m, InlineImageComparisons(cur, prior)), k) == ValueAt(m, k)
  {
    ReplayKeeps(m, InlineImageComparisons(cur, prior), k);
  }

  lemma InlineImageUnchanged(m: Patch, p: AndroidTextInputProps)
    ensures Replay(m, InlineImageComparisons(p, p)) == m
  {
    ReplayFirstUnchanged(m, InlineImageComparisons(p, p), |InlineImageComparisons(p, p)|);
  }

  lemma InputBehaviourKeeps(m: Patch, cur: AndroidTextInputProps, prior: AndroidTextInputProps, k: PatchKey)
    requires k != Own(ShowSoftInputOnFocus) && k != Own(AutoCorrect) && k != Own(AllowFontScaling) && k != Own(MaxFontSizeMultiplier)
    ensures ValueAt(Replay(m, InputBehaviourComparisons(cur, prior)), k) == ValueAt(m, k)
  {
    ReplayKeeps(m, InputBehaviourComparisons(cur, prior), k);
  }

  lemma InputBehaviourUnchanged(m: Patch, p: AndroidTextInputProps)
    ensures Replay(m, InputBehaviourComparisons(p, p)) == m
  {
    ReplayFirstUnchanged(m, InputBehaviourComparisons(p, p), |InputBehaviourComparisons(p, p)|);
  }

  lemma KeyboardKeeps(m: Patch, cur: AndroidTextInputProps, prior: AndroidTextInputProps, k: PatchKey)
    requires k != Own(KeyboardType) && k != Own(ReturnKeyType) && k != Own(SecureTextEntry) && k != Own(Value)
    ensures ValueAt(Replay(m, KeyboardComparisons(cur, prior)), k) == ValueAt(m, k)
  {
    ReplayKeeps(m, KeyboardComparisons(cur, prior), k);
  }

  lemma KeyboardUnchanged(m: Patch, p: AndroidTextInputProps)
    ensures Replay(m, KeyboardComparisons(p, p)) == m
  {
    ReplayFirstUnchanged(m, KeyboardComparisons(p, p), |KeyboardComparisons(p, p)|);
  }

  lemma SelectionKeeps(m: Patch, cur: AndroidTextInputProps, prior: AndroidTextInputProps, k: PatchKey)
    requires k != Own(SelectTextOnFocus) && k != Own(CaretHidden) && k != Own(ContextMenuHidden)
    ensures ValueAt(Replay(m, SelectionComparisons(cur, prior)), k) == ValueAt(m, k)
  {
    ReplayKeeps(m, SelectionComparisons(cur, prior), k);
  }

  lemma SelectionUnchanged(m: Patch, p: AndroidTextInputProps)
    ensures Replay(m, SelectionComparisons(p, p)) == m
  {
    ReplayFirstUnchanged(m, SelectionComparisons(p, p), |SelectionComparisons(p, p)|);
  }

  lemma TextShadowKeeps(m: Patch, cur: AndroidTextInputProps, prior: AndroidTextInputProps, k: PatchKey)
    requires k != Own(TextShadowColor) && k != Own(TextShadowRadius) && k != Own(TextDecorationLine) && k != Own(FontStyle) && k != Own(TextShadowOffset)
    ensures ValueAt(Replay(m, TextShadowComparisons(cur, prior)), k) == ValueAt(m, k)
  {
    ReplayKeeps(m, TextShadowComparisons(cur, prior), k);
  }

  lemma TextShadowUnchanged(m: Patch, p: AndroidTextInputProps)
    ensures Replay(m, TextShadowComparisons(p, p)) == m
  {
    ReplayFirstUnchanged(m, TextShadowComparisons(p, p), |TextShadowComparisons(p, p)|);
  }

  lemma TextMetricsKeeps(m: Patch, cur: AndroidTextInputProps, prior: AndroidTextInputProps, k: PatchKey)
    requires k != Own(LineHeight) && k != Own(TextTransform) && k != Own(LetterSpacing) && k != Own(FontSize)
    ensures ValueAt(Replay(m, TextMetricsComparisons(cur, prior)), k) == ValueAt(m, k)
  {
    ReplayKeeps(m, TextMetricsComparisons(cur, prior), k);
  }

  lemma TextMetricsUnchanged(m: Patch, p: AndroidTextInputProps)
    ensures Replay(m, TextMetricsComparisons(p, p)) == m
  {
    ReplayFirstUnchanged(m, TextMetricsComparisons(p, p), |TextMetricsComparisons(p, p)|);
  }

  lemma FontKeeps(m: Patch, cur: AndroidTextInputProps, prior: AndroidTextInputProps, k: PatchKey)
    requires k != Own(TextAlign) && k != Own(IncludeFontPadding) && k != Own(FontWeight) && k != Own(FontFamily)
    ensures ValueAt(Replay(m, FontComparisons(cur, prior)), k) == ValueAt(m, k)
  {
    ReplayKeeps(m, FontComparisons(cur, prior), k);
  }

  lemma FontUnchanged(m: Patch, p: AndroidTextInputProps)
    ensures Replay(m, FontComparisons(p, p)) == m
  {
    ReplayFirstUnchanged(m, FontComparisons(p, p), |FontComparisons(p, p)|);
  }

  /** A record diffed against itself: no comparison finds a change, so only the view layer's patch remains. */
  lemma SelfDiffIsViewDiff(p: AndroidTextInputProps,
      viewDiff: (AndroidTextInputProps, AndroidTextInputProps) -> Patch)
    ensures DiffAgainst(p, p, viewDiff) == viewDiff(p, p)
  {
    var m := viewDiff(p, p);
    DiffInGroups(p, p, m);
    LineBreakingUnchanged(m, p);
    FontSizingUnchanged(m, p);
    ParagraphLayoutUnchanged(m, p);
    InitialTextUnchanged(m, p);
    ColorsUnchanged(m, p);
    ContentUnchanged(m, p);
    EditingUnchanged(m, p);
    SubmissionUnchanged(m, p);
    AutofillUnchanged(m, p);
    InlineImageUnchanged(m, p);
    InputBehaviourUnchanged(m, p);
    KeyboardUnchanged(m, p);
    SelectionUnchanged(m, p);
    TextShadowUnchanged(m, p);
    TextMetricsUnchanged(m, p);
    FontUnchanged(m, p);
  }

  // The runs numbered in source order, so that one statement covers any run.

  /** The number of runs the comparisons are grouped into. */
  const RunCount: nat := 16

  /** Run `g` of the comparisons, in source order. */
  function Run(g: nat, cur: AndroidTextInputProps, prior: AndroidTextInputProps): seq<Comparison>
    requires g < RunCount
  {
    match g
    case 0 => LineBreakingComparisons(cur, prior)
    case 1 => FontSizingComparisons(cur, prior)
    case 2 => ParagraphLayoutComparisons(cur, prior)
    case 3 => InitialTextComparisons(cur, prior)
    case 4 => ColorsComparisons(cur, prior)
    case 5 => ContentComparisons(cur, prior)
    case 6 => EditingComparisons(cur, prior)
    case 7 => SubmissionComparisons(cur, prior)
    case 8 => AutofillComparisons(cur, prior)
    case 9 => InlineImageComparisons(cur, prior)
    case 10 => InputBehaviourComparisons(cur, prior)
    case 11 => KeyboardComparisons(cur, prior)
    case 12 => SelectionComparisons(cur, prior)
    case 13 => TextShadowComparisons(cur, prior)
    case 14 => TextMetricsComparisons(cur, prior)
    case _ => FontComparisons(cur, prior)
  }

  /** The first `n` runs replayed onto `m`, one after another. */
  function RunsFirst(m: Patch, n: nat, cur: AndroidTextInputProps, prior: AndroidTextInputProps): Patch
    requires n <= RunCount
  {
    if n == 0 then m else Replay(RunsFirst(m, n - 1, cur, prior), Run(n - 1, cur, prior))
  }

  lemma RunsFirstTo2(m: Patch, cur: AndroidTextInputProps, prior: AndroidTextInputProps)
    ensures RunsFirst(m, 2, cur, prior) == Replay(Replay(m, LineBreakingComparisons(cur, prior)), FontSizingComparisons(cur, prior))
  {
    assert RunsFirst(m, 1, cur, prior) == Replay(m, LineBreakingComparisons(cur, prior));
  }

  lemma RunsFirstTo4(m: Patch, cur: AndroidTextInputProps, prior: AndroidTextInputProps)
    ensures RunsFirst(m, 4, cur, prior) == Replay(Replay(RunsFirst(m, 2, cur, prior), ParagraphLayoutComparisons(cur, prior)), InitialTextComparisons(cur, prior))
  {
    assert RunsFirst(m, 3, cur, prior) == Replay(RunsFirst(m, 2, cur, prior), ParagraphLayoutComparisons(cur, prior));
  }

  lemma RunsFirstTo6(m: Patch, cur: AndroidTextInputProps, prior: AndroidTextInputProps)
    ensures RunsFirst(m, 6, cur, prior) == Replay(Replay(RunsFirst(m, 4, cur, prior), ColorsComparisons(cur, prior)), ContentComparisons(cur, prior))
  {
    assert RunsFirst(m, 5, cur, prior) == Replay(RunsFirst(m, 4, cur, prior), ColorsComparisons(cur, prior));
  }

  lemma RunsFirstTo8(m: Patch, cur: AndroidTextInputProps, prior: AndroidTextInputProps)
    ensures RunsFirst(m, 8, cur, prior) == Replay(Replay(RunsFirst(m, 6, cur, prior), EditingComparisons(cur, prior)), SubmissionComparisons(cur, prior))
  {
    assert RunsFirst(m, 7, cur, prior) == Replay(RunsFirst(m, 6, cur, prior), EditingComparisons(cur, prior));
  }

  lemma RunsFirstTo10(m: Patch, cur: AndroidTextInputProps, prior: AndroidTextInputProps)
    ensures RunsFirst(m, 10, cur, prior) == Replay(Replay(RunsFirst(m, 8, cur, prior), AutofillComparisons(cur, prior)), InlineImageComparisons(cur, prior))
  {
    assert RunsFirst(m, 9, cur, prior) == Replay(RunsFirst(m, 8, cur, prior), AutofillComparisons(cur, prior));
  }

  lemma RunsFirstTo12(m: Patch, cur: AndroidTextInputProps, prior: AndroidTextInputProps)
    ensures RunsFirst(m, 12, cur, prior) == Replay(Replay(RunsFirst(m, 10, cur, prior), InputBehaviourComparisons(cur, prior)), KeyboardComparisons(cur, prior))
  {
    assert RunsFirst(m, 11, cur, prior) == Replay(RunsFirst(m, 10, cur, prior), InputBehaviourComparisons(cur, prior));
  }

  lemma RunsFirstTo14(m: Patch, cur: AndroidTextInputProps, prior: AndroidTextInputProps)
    ensures RunsFirst(m, 14, cur, prior) == Replay(Replay(RunsFirst(m, 12, cur, prior), SelectionComparisons(cur, prior)), TextShadowComparisons(cur, prior))
  {
    assert RunsFirst(m, 13, cur, prior) == Replay(RunsFirst(m, 12, cur, prior), SelectionComparisons(cur, prior));
  }

  lemma RunsFirstTo16(m: Patch, cur: AndroidTextInputProps, prior: AndroidTextInputProps)
    ensures RunsFirst(m, 16, cur, prior) == Replay(Replay(RunsFirst(m, 14, cur, prior), TextMetricsComparisons(cur, prior)), FontComparisons(cur, prior))
  {
    assert RunsFirst(m, 15, cur, prior) == Replay(RunsFirst(m, 14, cur, prior), TextMetricsComparisons(cur, prior));
  }

  /** `RunByRun` is the replay of all the numbered runs. */
  lemma RunByRunIsRunsFirst(m: Patch, cur: AndroidTextInputProps, prior: AndroidTextInputProps)
    ensures RunByRun(m, cur, prior) == RunsFirst(m, RunCount, cur, prior)
  {
    RunsFirstTo2(m, cur, prior);
    RunsFirstTo4(m, cur, prior);
    RunsFirstTo6(m, cur, prior);
    RunsFirstTo8(m, cur, prior);
    RunsFirstTo10(m, cur, prior);
    RunsFirstTo12(m, cur, prior);
    RunsFirstTo14(m, cur, prior);
    RunsFirstTo16(m, cur, prior);
  }

  /** The patch of `getDiffProps` is the replay of the numbered runs onto the view layer's patch. */
  lemma DiffIsRunsFirst(cur: AndroidTextInputProps, prior: AndroidTextInputProps,
      viewDiff: (AndroidTextInputProps, AndroidTextInputProps) -> Patch)
    ensures DiffAgainst(cur, prior, viewDiff) == RunsFirst(viewDiff(cur, prior), RunCount, cur, prior)
  {
    DiffInGroups(cur, prior, viewDiff(cur, prior));
    RunByRunIsRunsFirst(viewDiff(cur, prior), cur, prior);
  }

  /** Run `g` makes no comparison under `k`: `k` is none of the keys the run compares under. */
  predicate RunAvoids(g: nat, k: PatchKey) {
    match g
    case 0 => k != Own(NumberOfLines) && k != EllipsizeModeKey && k != Own(TextBreakStrategy)
    case 1 => k != AdjustsFontSizeToFitKey && k != MinimumFontSizeKey && k != MaximumFontSizeKey
    case 2 => k != Own(IncludeFontPadding) && k != HyphenationFrequencyKey && k != TextAlignVerticalKey
    case 3 => k != DefaultValueKey && k != PlaceholderKey
    case 4 => k != PlaceholderTextColorKey && k != CursorColorKey && k != SelectionColorKey && k != SelectionHandleColorKey && k != UnderlineColorAndroidKey
    case 5 => k != MaxLengthKey && k != TextKey && k != MostRecentEventCountKey
    case 6 => k != AutoFocusKey && k != AutoCapitalizeKey && k != EditableKey && k != ReadOnlyKey
    case 7 => k != SubmitBehaviorKey && k != MultilineKey && k != DisableKeyboardShortcutsKey && k != AcceptDragAndDropTypesKey
    case 8 => k != Own(AutoComplete) && k != Own(ReturnKeyLabel) && k != Own(NumberOfLines) && k != Own(DisableFullscreenUI)
    case 9 => k != Own(TextBreakStrategy) && k != Own(InlineImageLeft) && k != Own(InlineImagePadding) && k != Own(ImportantForAutofill)
    case 10 => k != Own(ShowSoftInputOnFocus) && k != Own(AutoCorrect) && k != Own(AllowFontScaling) && k != Own(MaxFontSizeMultiplier)
    case 11 => k != Own(KeyboardType) && k != Own(ReturnKeyType) && k != Own(SecureTextEntry) && k != Own(Value)
    case 12 => k != Own(SelectTextOnFocus) && k != Own(CaretHidden) && k != Own(ContextMenuHidden)
    case 13 => k != Own(TextShadowColor) && k != Own(TextShadowRadius) && k != Own(TextDecorationLine) && k != Own(FontStyle) && k != Own(TextShadowOffset)
    case 14 => k != Own(LineHeight) && k != Own(TextTransform) && k != Own(LetterSpacing) && k != Own(FontSize)
    case _ => k != Own(TextAlign) && k != Own(IncludeFontPadding) && k != Own(FontWeight) && k != Own(FontFamily)
  }

  lemma RunAvoidsKeeps0To3(m: Patch, g: nat, cur: AndroidTextInputProps, prior: AndroidTextInputProps, k: PatchKey)
    requires 0 <= g < 4 && RunAvoids(g, k)
    ensures ValueAt(Replay(m, Run(g, cur, prior)), k) == ValueAt(m, k)
  {
    if g == 0 {
      LineBreakingKeeps(m, cur, prior, k);
    } else if g == 1 {
      FontSizingKeeps(m, cur, prior, k);
    } else if g == 2 {
      ParagraphLayoutKeeps(m, cur, prior, k);
    } else {
      InitialTextKeeps(m, cur, prior, k);
    }
  }

  lemma RunAvoidsKeeps4To7(m: Patch, g: nat, cur: AndroidTextInputProps, prior: AndroidTextInputProps, k: PatchKey)
    requires 4 <= g < 8 && RunAvoids(g, k)
    ensures ValueAt(Replay(m, Run(g, cur, prior)), k) == ValueAt(m, k)
  {
    if g == 4 {
      ColorsKeeps(m, cur, prior, k);
    } else if g == 5 {
      ContentKeeps(m, cur, prior, k);
    } else if g == 6 {
      EditingKeeps(m, cur, prior, k);
    } else {
      SubmissionKeeps(m, cur, prior, k);
    }
  }

  lemma RunAvoidsKeeps8To11(m: Patch, g: nat, cur: AndroidTextInputProps, prior: AndroidTextInputProps, k: PatchKey)
    requires 8 <= g < 12 && RunAvoids(g, k)
    ensures ValueAt(Replay(m, Run(g, cur, prior)), k) == ValueAt(m, k)
  {
    if g == 8 {
      AutofillKeeps(m, cur, prior, k);
    } else if g == 9 {
      InlineImageKeeps(m, cur, prior, k);
    } else if g == 10 {
      InputBehaviourKeeps(m, cur, prior, k);
    } else {
      KeyboardKeeps(m, cur, prior, k);
    }
  }

  lemma RunAvoidsKeeps12To15(m: Patch, g: nat, cur: AndroidTextInputProps, prior: AndroidTextInputProps, k: PatchKey)
    requires 12 <= g < 16 && RunAvoids(g, k)
    ensures ValueAt(Replay(m, Run(g, cur, prior)), k) == ValueAt(m, k)
  {
    if g == 12 {
      SelectionKeeps(m, cur, prior, k);
    } else if g == 13 {
      TextShadowKeeps(m, cur, prior, k);
    } else if g == 14 {
      TextMetricsKeeps(m, cur, prior, k);
    } else {
      FontKeeps(m, cur, prior, k);
    }
  }

  /** A run that makes no comparison under `k` leaves `k` as it found it. */
  lemma RunAvoidsKeeps(m: Patch, g: nat, cur: AndroidTextInputProps, prior: AndroidTextInputProps, k: PatchKey)
    requires g < RunCount && RunAvoids(g, k)
    ensures ValueAt(Replay(m, Run(g, cur, prior)), k) == ValueAt(m, k)
  {
    if g < 4 {
      RunAvoidsKeeps0To3(m, g, cur, prior, k);
    } else if g < 8 {
      RunAvoidsKeeps4To7(m, g, cur, prior, k);
    } else if g < 12 {
      RunAvoidsKeeps8To11(m, g, cur, prior, k);
    } else {
      RunAvoidsKeeps12To15(m, g, cur, prior, k);
    }
  }

  /** Run `n`, which makes no comparison under `k`, leaves `k` as the earlier runs set it. */
  lemma RunsFirstStepKeeps(m: Patch, n: nat, cur: AndroidTextInputProps, prior: AndroidTextInputProps, k: PatchKey)
    requires n < RunCount && RunAvoids(n, k)
    ensures ValueAt(RunsFirst(m, n + 1, cur, prior), k) == ValueAt(RunsFirst(m, n, cur, prior), k)
  {
    RunAvoidsKeeps(RunsFirst(m, n, cur, prior), n, cur, prior, k);
  }

  /** Comparison `p` of run `g` is the only comparison of that run made under `k`. */
  predicate SoleInRun(cur: AndroidTextInputProps, prior: AndroidTextInputProps, k: PatchKey, g: nat, p: nat) {
    && g < RunCount && p < |Run(g, cur, prior)| && Run(g, cur, prior)[p].key == k
    && (forall j :: 0 <= j < |Run(g, cur, prior)| && j != p ==> Run(g, cur, prior)[j].key != k)
  }

  /** Run `g` sets `k` as its only comparison under `k` does. */
  lemma RunsFirstSole(m: Patch, g: nat, p: nat, cur: AndroidTextInputProps, prior: AndroidTextInputProps, k: PatchKey)
    requires SoleInRun(cur, prior, k, g, p)
    ensures ValueAt(RunsFirst(m, g + 1, cur, prior), k)
         == if Run(g, cur, prior)[p].changed then Some(Run(g, cur, prior)[p].emitted)
            else ValueAt(RunsFirst(m, g, cur, prior), k)
  {
    ReplaySoleWriter(RunsFirst(m, g, cur, prior), Run(g, cur, prior), k, p);
  }


  // The keys written by one comparison each, with that comparison's change
  // test and value stated field by field, as the source writes them.

  /** The keys of the patch that exactly one comparison writes. */
  predicate WrittenOnce(k: PatchKey) {
    match k
    case View(_) => false
    case Own(key) => key.IsParsed() && key != NumberOfLines && key != TextBreakStrategy && key != IncludeFontPadding
    case _ => true
  }

  /** Whether the field behind key `k` differs between the two records, under the source's test for that field. */
  function FieldChanged(cur: AndroidTextInputProps, prior: AndroidTextInputProps, k: PatchKey): bool {
    match k
    case EllipsizeModeKey => cur.base.paragraphAttributes.ellipsizeMode != prior.base.paragraphAttributes.ellipsizeMode
    case AdjustsFontSizeToFitKey => cur.base.paragraphAttributes.adjustsFontSizeToFit != prior.base.paragraphAttributes.adjustsFontSizeToFit
    case MinimumFontSizeKey => !FloatEquality(cur.base.paragraphAttributes.minimumFontSize, prior.base.paragraphAttributes.minimumFontSize)
    case MaximumFontSizeKey => !FloatEquality(cur.base.paragraphAttributes.maximumFontSize, prior.base.paragraphAttributes.maximumFontSize)
    case HyphenationFrequencyKey => cur.base.paragraphAttributes.hyphenationFrequency != prior.base.paragraphAttributes.hyphenationFrequency
    case TextAlignVerticalKey => cur.base.paragraphAttributes.textAlignVertical != prior.base.paragraphAttributes.textAlignVertical
    case DefaultValueKey => cur.base.defaultValue != prior.base.defaultValue
    case PlaceholderKey => cur.base.placeholder != prior.base.placeholder
    case PlaceholderTextColorKey => cur.base.placeholderTextColor != prior.base.placeholderTextColor
    case CursorColorKey => cur.base.cursorColor != prior.base.cursorColor
    case SelectionColorKey => cur.base.selectionColor != prior.base.selectionColor
    case SelectionHandleColorKey => cur.base.selectionHandleColor != prior.base.selectionHandleColor
    case UnderlineColorAndroidKey => cur.base.underlineColorAndroid != prior.base.underlineColorAndroid
    case MaxLengthKey => cur.base.maxLength != prior.base.maxLength
    case TextKey => cur.base.text != prior.base.text
    case MostRecentEventCountKey => cur.base.mostRecentEventCount != prior.base.mostRecentEventCount
    case AutoFocusKey => cur.base.autoFocus != prior.base.autoFocus
    case AutoCapitalizeKey => cur.base.autoCapitalize != prior.base.autoCapitalize
    case EditableKey => cur.base.editable != prior.base.editable
    case ReadOnlyKey => cur.base.readOnly != prior.base.readOnly
    case SubmitBehaviorKey => cur.base.submitBehavior != prior.base.submitBehavior
    case MultilineKey => cur.base.multiline != prior.base.multiline
    case DisableKeyboardShortcutsKey => cur.base.disableKeyboardShortcuts != prior.base.disableKeyboardShortcuts
    case AcceptDragAndDropTypesKey => cur.base.acceptDragAndDropTypes != prior.base.acceptDragAndDropTypes
    case Own(AutoComplete) => cur.fields.autoComplete != prior.fields.autoComplete
    case Own(ReturnKeyLabel) => cur.fields.returnKeyLabel != prior.fields.returnKeyLabel
    case Own(DisableFullscreenUI) => cur.fields.disableFullscreenUI != prior.fields.disableFullscreenUI
    case Own(InlineImageLeft) => cur.fields.inlineImageLeft != prior.fields.inlineImageLeft
    case Own(InlineImagePadding) => cur.fields.inlineImagePadding != prior.fields.inlineImagePadding
    case Own(ImportantForAutofill) => cur.fields.importantForAutofill != prior.fields.importantForAutofill
    case Own(ShowSoftInputOnFocus) => cur.fields.showSoftInputOnFocus != prior.fields.showSoftInputOnFocus
    case Own(AutoCorrect) => cur.fields.autoCorrect != prior.fields.autoCorrect
    case Own(AllowFontScaling) => cur.fields.allowFontScaling != prior.fields.allowFontScaling
    case Own(MaxFontSizeMultiplier) => cur.fields.maxFontSizeMultiplier != prior.fields.maxFontSizeMultiplier
    case Own(KeyboardType) => cur.fields.keyboardType != prior.fields.keyboardType
    case Own(ReturnKeyType) => cur.fields.returnKeyType != prior.fields.returnKeyType
    case Own(SecureTextEntry) => cur.fields.secureTextEntry != prior.fields.secureTextEntry
    case Own(Value) => cur.fields.value != prior.fields.value
    case Own(SelectTextOnFocus) => cur.fields.selectTextOnFocus != prior.fields.selectTextOnFocus
    case Own(CaretHidden) => cur.fields.caretHidden != prior.fields.caretHidden
    case Own(ContextMenuHidden) => cur.fields.contextMenuHidden != prior.fields.contextMenuHidden
    case Own(TextShadowColor) => cur.fields.textShadowColor != prior.fields.textShadowColor
    case Own(TextShadowRadius) => cur.fields.textShadowRadius != prior.fields.textShadowRadius
    case Own(TextDecorationLine) => cur.fields.textDecorationLine != prior.fields.textDecorationLine
    case Own(FontStyle) => cur.fields.fontStyle != prior.fields.fontStyle
    case Own(TextShadowOffset) => cur.fields.textShadowOffset != prior.fields.textShadowOffset
    case Own(LineHeight) => cur.fields.lineHeight != prior.fields.lineHeight
    case Own(TextTransform) => cur.fields.textTransform != prior.fields.textTransform
    case Own(LetterSpacing) => cur.fields.letterSpacing != prior.fields.letterSpacing
    case Own(FontSize) => cur.fields.fontSize != prior.fields.fontSize
    case Own(TextAlign) => cur.fields.textAlign != prior.fields.textAlign
    case Own(FontWeight) => cur.fields.fontWeight != prior.fields.fontWeight
    case Own(FontFamily) => cur.fields.fontFamily != prior.fields.fontFamily
    case _ => false
  }

  /** The value written under key `k`: the current record's field, encoded as the source encodes it. */
  function FieldValue(cur: AndroidTextInputProps, k: PatchKey): Val {
    match k
    case EllipsizeModeKey => VString(EllipsizeModeName(cur.base.paragraphAttributes.ellipsizeMode))
    case AdjustsFontSizeToFitKey => VBool(cur.base.paragraphAttributes.adjustsFontSizeToFit)
    case MinimumFontSizeKey => VReal(cur.base.paragraphAttributes.minimumFontSize)
    case MaximumFontSizeKey => VReal(cur.base.paragraphAttributes.maximumFontSize)
    case HyphenationFrequencyKey => VString(HyphenationFrequencyName(cur.base.paragraphAttributes.hyphenationFrequency))
    case TextAlignVerticalKey => AlignmentValue(cur.base.paragraphAttributes.textAlignVertical)
    case DefaultValueKey => VString(cur.base.defaultValue)
    case PlaceholderKey => VString(cur.base.placeholder)
    case PlaceholderTextColorKey => ColorValue(cur.base.placeholderTextColor)
    case CursorColorKey => ColorValue(cur.base.cursorColor)
    case SelectionColorKey => ColorValue(cur.base.selectionColor)
    case SelectionHandleColorKey => ColorValue(cur.base.selectionHandleColor)
    case UnderlineColorAndroidKey => ColorValue(cur.base.underlineColorAndroid)
    case MaxLengthKey => VInt(cur.base.maxLength)
    case TextKey => VString(cur.base.text)
    case MostRecentEventCountKey => VInt(cur.base.mostRecentEventCount)
    case AutoFocusKey => VBool(cur.base.autoFocus)
    case AutoCapitalizeKey => VString(cur.base.autoCapitalize)
    case EditableKey => VBool(cur.base.editable)
    case ReadOnlyKey => VBool(cur.base.readOnly)
    case SubmitBehaviorKey => VString(SubmitBehaviorName(cur.base.submitBehavior))
    case MultilineKey => VBool(cur.base.multiline)
    case DisableKeyboardShortcutsKey => VBool(cur.base.disableKeyboardShortcuts)
    case AcceptDragAndDropTypesKey => TypesValue(cur.base.acceptDragAndDropTypes)
    case Own(AutoComplete) => VString(cur.fields.autoComplete)
    case Own(ReturnKeyLabel) => VString(cur.fields.returnKeyLabel)
    case Own(DisableFullscreenUI) => VBool(cur.fields.disableFullscreenUI)
    case Own(InlineImageLeft) => VString(cur.fields.inlineImageLeft)
    case Own(InlineImagePadding) => VInt(cur.fields.inlineImagePadding)
    case Own(ImportantForAutofill) => VString(cur.fields.importantForAutofill)
    case Own(ShowSoftInputOnFocus) => VBool(cur.fields.showSoftInputOnFocus)
    case Own(AutoCorrect) => VBool(cur.fields.autoCorrect)
    case Own(AllowFontScaling) => VBool(cur.fields.allowFontScaling)
    case Own(MaxFontSizeMultiplier) => VReal(cur.fields.maxFontSizeMultiplier)
    case Own(KeyboardType) => VString(cur.fields.keyboardType)
    case Own(ReturnKeyType) => VString(cur.fields.returnKeyType)
    case Own(SecureTextEntry) => VBool(cur.fields.secureTextEntry)
    case Own(Value) => VString(cur.fields.value)
    case Own(SelectTextOnFocus) => VBool(cur.fields.selectTextOnFocus)
    case Own(CaretHidden) => VBool(cur.fields.caretHidden)
    case Own(ContextMenuHidden) => VBool(cur.fields.contextMenuHidden)
    case Own(TextShadowColor) => ColorValue(cur.fields.textShadowColor)
    case Own(TextShadowRadius) => VReal(cur.fields.textShadowRadius)
    case Own(TextDecorationLine) => VString(cur.fields.textDecorationLine)
    case Own(FontStyle) => VString(cur.fields.fontStyle)
    case Own(TextShadowOffset) => SizeValue(cur.fields.textShadowOffset)
    case Own(LineHeight) => VReal(cur.fields.lineHeight)
    case Own(TextTransform) => VString(cur.fields.textTransform)
    case Own(LetterSpacing) => VReal(cur.fields.letterSpacing)
    case Own(FontSize) => VReal(cur.fields.fontSize)
    case Own(TextAlign) => VString(cur.fields.textAlign)
    case Own(FontWeight) => VString(cur.fields.fontWeight)
    case Own(FontFamily) => VString(cur.fields.fontFamily)
    case _ => VNull
  }

  // Where each such key is compared: the run and position of its only
  // comparison, which tests and writes the field as the lens says, and no
  // other run comparing under it.

  lemma EllipsizeModeComparison(cur: AndroidTextInputProps, prior: AndroidTextInputProps)
    ensures SoleInRun(cur, prior, EllipsizeModeKey, 0, 1)
    ensures Run(0, cur, prior)[1] == Comparison(EllipsizeModeKey, FieldChanged(cur, prior, EllipsizeModeKey), FieldValue(cur, EllipsizeModeKey))
  {
  }

  /** No run but run 0 compares under these keys. */
  lemma LineBreakingKeysAvoided(k: PatchKey)
    requires k == EllipsizeModeKey
    ensures forall h :: 0 <= h < RunCount && h != 0 ==> RunAvoids(h, k)
  {
  }

  /** Run 0 sets each of its keys as the lens says, and the other runs leave it alone. */
  lemma LineBreakingInRuns(m: Patch, cur: AndroidTextInputProps, prior: AndroidTextInputProps, k: PatchKey)
    requires k == EllipsizeModeKey
    ensures ValueAt(RunsFirst(m, RunCount, cur, prior), k)
         == if FieldChanged(cur, prior, k) then Some(FieldValue(cur, k)) else ValueAt(m, k)
  {
    LineBreakingKeysAvoided(k);
    var p: nat;
    p := 1;
    EllipsizeModeComparison(cur, prior);
    RunsFirstSole(m, 0, p, cur, prior, k);
    RunsKeep1To15(m, cur, prior, k);
  }

  lemma AdjustsFontSizeToFitComparison(cur: AndroidTextInputProps, prior: AndroidTextInputProps)
    ensures SoleInRun(cur, prior, AdjustsFontSizeToFitKey, 1, 0)
    ensures Run(1, cur, prior)[0] == Comparison(AdjustsFontSizeToFitKey, FieldChanged(cur, prior, AdjustsFontSizeToFitKey), FieldValue(cur, AdjustsFontSizeToFitKey))
  {
  }

  lemma MinimumFontSizeComparison(cur: AndroidTextInputProps, prior: AndroidTextInputProps)
    ensures SoleInRun(cur, prior, MinimumFontSizeKey, 1, 1)
    ensures Run(1, cur, prior)[1] == Comparison(MinimumFontSizeKey, FieldChanged(cur, prior, MinimumFontSizeKey), FieldValue(cur, MinimumFontSizeKey))
  {
  }

  lemma MaximumFontSizeComparison(cur: AndroidTextInputProps, prior: AndroidTextInputProps)
    ensures SoleInRun(cur, prior, MaximumFontSizeKey, 1, 2)
    ensures Run(1, cur, prior)[2] == Comparison(MaximumFontSizeKey, FieldChanged(cur, prior, MaximumFontSizeKey), FieldValue(cur, MaximumFontSizeKey))
  {
  }

  /** No run but run 1 compares under these keys. */
  lemma FontSizingKeysAvoided(k: PatchKey)
    requires k == AdjustsFontSizeToFitKey || k == MinimumFontSizeKey || k == MaximumFontSizeKey
    ensures forall h :: 0 <= h < RunCount && h != 1 ==> RunAvoids(h, k)
  {
  }

  /** Run 1 sets each of its keys as the lens says, and the other runs leave it alone. */
  lemma FontSizingInRuns(m: Patch, cur: AndroidTextInputProps, prior: AndroidTextInputProps, k: PatchKey)
    requires k == AdjustsFontSizeToFitKey || k == MinimumFontSizeKey || k == MaximumFontSizeKey
    ensures ValueAt(RunsFirst(m, RunCount, cur, prior), k)
         == if FieldChanged(cur, prior, k) then Some(FieldValue(cur, k)) else ValueAt(m, k)
  {
    FontSizingKeysAvoided(k);
    var p: nat;
    if k == AdjustsFontSizeToFitKey {
      p := 0;
      AdjustsFontSizeToFitComparison(cur, prior);
    } else if k == MinimumFontSizeKey {
      p := 1;
      MinimumFontSizeComparison(cur, prior);
    } else {
      p := 2;
      MaximumFontSizeComparison(cur, prior);
    }
    RunsKeep0To0(m, cur, prior, k);
    RunsFirstSole(m, 1, p, cur, prior, k);
    RunsKeep2To15(m, cur, prior, k);
  }

  lemma HyphenationFrequencyComparison(cur: AndroidTextInputProps, prior: AndroidTextInputProps)
    ensures SoleInRun(cur, prior, HyphenationFrequencyKey, 2, 1)
    ensures Run(2, cur, prior)[1] == Comparison(HyphenationFrequencyKey, FieldChanged(cur, prior, HyphenationFrequencyKey), FieldValue(cur, HyphenationFrequencyKey))
  {
  }

  lemma TextAlignVerticalComparison(cur: AndroidTextInputProps, prior: AndroidTextInputProps)
    ensures SoleInRun(cur, prior, TextAlignVerticalKey, 2, 2)
    ensures Run(2, cur, prior)[2] == Comparison(TextAlignVerticalKey, FieldChanged(cur, prior, TextAlignVerticalKey), FieldValue(cur, TextAlignVerticalKey))
  {
  }

  /** No run but run 2 compares under these keys. */
  lemma ParagraphLayoutKeysAvoided(k: PatchKey)
    requires k == HyphenationFrequencyKey || k == TextAlignVerticalKey
    ensures forall h :: 0 <= h < RunCount && h != 2 ==> RunAvoids(h, k)
  {
  }

  /** Run 2 sets each of its keys as the lens says, and the other runs leave it alone. */
  lemma ParagraphLayoutInRuns(m: Patch, cur: AndroidTextInputProps, prior: AndroidTextInputProps, k: PatchKey)
    requires k == HyphenationFrequencyKey || k == TextAlignVerticalKey
    ensures ValueAt(RunsFirst(m, RunCount, cur, prior), k)
         == if FieldChanged(cur, prior, k) then Some(FieldValue(cur, k)) else ValueAt(m, k)
  {
    ParagraphLayoutKeysAvoided(k);
    var p: nat;
    if k == HyphenationFrequencyKey {
      p := 1;
      HyphenationFrequencyComparison(cur, prior);
    } else {
      p := 2;
      TextAlignVerticalComparison(cur, prior);
    }
    RunsKeep0To1(m, cur, prior, k);
    RunsFirstSole(m, 2, p, cur, prior, k);
    RunsKeep3To15(m, cur, prior, k);
  }

  lemma DefaultValueComparison(cur: AndroidTextInputProps, prior: AndroidTextInputProps)
    ensures SoleInRun(cur, prior, DefaultValueKey, 3, 0)
    ensures Run(3, cur, prior)[0] == Comparison(DefaultValueKey, FieldChanged(cur, prior, DefaultValueKey), FieldValue(cur, DefaultValueKey))
  {
  }

  lemma PlaceholderComparison(cur: AndroidTextInputProps, prior: AndroidTextInputProps)
    ensures SoleInRun(cur, prior, PlaceholderKey, 3, 1)
    ensures Run(3, cur, prior)[1] == Comparison(PlaceholderKey, FieldChanged(cur, prior, PlaceholderKey), FieldValue(cur, PlaceholderKey))
  {
  }

  /** No run but run 3 compares under these keys. */
  lemma InitialTextKeysAvoided(k: PatchKey)
    requires k == DefaultValueKey || k == PlaceholderKey
    ensures forall h :: 0 <= h < RunCount && h != 3 ==> RunAvoids(h, k)
  {
  }

  /** Run 3 sets each of its keys as the lens says, and the other runs leave it alone. */
  lemma InitialTextInRuns(m: Patch, cur: AndroidTextInputProps, prior: AndroidTextInputProps, k: PatchKey)
    requires k == DefaultValueKey || k == PlaceholderKey
    ensures ValueAt(RunsFirst(m, RunCount, cur, prior), k)
         == if FieldChanged(cur, prior, k) then Some(FieldValue(cur, k)) else ValueAt(m, k)
  {
    InitialTextKeysAvoided(k);
    var p: nat;
    if k == DefaultValueKey {
      p := 0;
      DefaultValueComparison(cur, prior);
    } else {
      p := 1;
      PlaceholderComparison(cur, prior);
    }
    RunsKeep0To2(m, cur, prior, k);
    RunsFirstSole(m, 3, p, cur, prior, k);
    RunsKeep4To15(m, cur, prior, k);
  }

  lemma PlaceholderTextColorComparison(cur: AndroidTextInputProps, prior: AndroidTextInputProps)
    ensures SoleInRun(cur, prior, PlaceholderTextColorKey, 4, 0)
    ensures Run(4, cur, prior)[0] == Comparison(PlaceholderTextColorKey, FieldChanged(cur, prior, PlaceholderTextColorKey), FieldValue(cur, PlaceholderTextColorKey))
  {
  }

  lemma CursorColorComparison(cur: AndroidTextInputProps, prior: AndroidTextInputProps)
    ensures SoleInRun(cur, prior, CursorColorKey, 4, 1)
    ensures Run(4, cur, prior)[1] == Comparison(CursorColorKey, FieldChanged(cur, prior, CursorColorKey), FieldValue(cur, CursorColorKey))
  {
  }

  lemma SelectionColorComparison(cur: AndroidTextInputProps, prior: AndroidTextInputProps)
    ensures SoleInRun(cur, prior, SelectionColorKey, 4, 2)
    ensures Run(4, cur, prior)[2] == Comparison(SelectionColorKey, FieldChanged(cur, prior, SelectionColorKey), FieldValue(cur, SelectionColorKey))
  {
  }

  lemma SelectionHandleColorComparison(cur: AndroidTextInputProps, prior: AndroidTextInputProps)
    ensures SoleInRun(cur, prior, SelectionHandleColorKey, 4, 3)
    ensures Run(4, cur, prior)[3] == Comparison(SelectionHandleColorKey, FieldChanged(cur, prior, SelectionHandleColorKey), FieldValue(cur, SelectionHandleColorKey))
  {
  }

  lemma UnderlineColorAndroidComparison(cur: AndroidTextInputProps, prior: AndroidTextInputProps)
    ensures SoleInRun(cur, prior, UnderlineColorAndroidKey, 4, 4)
    ensures Run(4, cur, prior)[4] == Comparison(UnderlineColorAndroidKey, FieldChanged(cur, prior, UnderlineColorAndroidKey), FieldValue(cur, UnderlineColorAndroidKey))
  {
  }

  /** No run but run 4 compares under these keys. */
  lemma ColorsKeysAvoided(k: PatchKey)
    requires k == PlaceholderTextColorKey || k == CursorColorKey || k == SelectionColorKey || k == SelectionHandleColorKey || k == UnderlineColorAndroidKey
    ensures forall h :: 0 <= h < RunCount && h != 4 ==> RunAvoids(h, k)
  {
  }

  /** Run 4 sets each of its keys as the lens says, and the other runs leave it alone. */
  lemma ColorsInRuns(m: Patch, cur: AndroidTextInputProps, prior: AndroidTextInputProps, k: PatchKey)
    requires k == PlaceholderTextColorKey || k == CursorColorKey || k == SelectionColorKey || k == SelectionHandleColorKey || k == UnderlineColorAndroidKey
    ensures ValueAt(RunsFirst(m, RunCount, cur, prior), k)
         == if FieldChanged(cur, prior, k) then Some(FieldValue(cur, k)) else ValueAt(m, k)
  {
    ColorsKeysAvoided(k);
    var p: nat;
    if k == PlaceholderTextColorKey {
      p := 0;
      PlaceholderTextColorComparison(cur, prior);
    } else if k == CursorColorKey {
      p := 1;
      CursorColorComparison(cur, prior);
    } else if k == SelectionColorKey {
      p := 2;
      SelectionColorComparison(cur, prior);
    } else if k == SelectionHandleColorKey {
      p := 3;
      SelectionHandleColorComparison(cur, prior);
    } else {
      p := 4;
      UnderlineColorAndroidComparison(cur, prior);
    }
    RunsKeep0To3(m, cur, prior, k);
    RunsFirstSole(m, 4, p, cur, prior, k);
    RunsKeep5To15(m, cur, prior, k);
  }

  lemma MaxLengthComparison(cur: AndroidTextInputProps, prior: AndroidTextInputProps)
    ensures SoleInRun(cur, prior, MaxLengthKey, 5, 0)
    ensures Run(5, cur, prior)[0] == Comparison(MaxLengthKey, FieldChanged(cur, prior, MaxLengthKey), FieldValue(cur, MaxLengthKey))
  {
  }

  lemma TextComparison(cur: AndroidTextInputProps, prior: AndroidTextInputProps)
    ensures SoleInRun(cur, prior, TextKey, 5, 1)
    ensures Run(5, cur, prior)[1] == Comparison(TextKey, FieldChanged(cur, prior, TextKey), FieldValue(cur, TextKey))
  {
  }

  lemma MostRecentEventCountComparison(cur: AndroidTextInputProps, prior: AndroidTextInputProps)
    ensures SoleInRun(cur, prior, MostRecentEventCountKey, 5, 2)
    ensures Run(5, cur, prior)[2] == Comparison(MostRecentEventCountKey, FieldChanged(cur, prior, MostRecentEventCountKey), FieldValue(cur, MostRecentEventCountKey))
  {
  }

  /** No run but run 5 compares under these keys. */
  lemma ContentKeysAvoided(k: PatchKey)
    requires k == MaxLengthKey || k == TextKey || k == MostRecentEventCountKey
    ensures forall h :: 0 <= h < RunCount && h != 5 ==> RunAvoids(h, k)
  {
  }

  /** Run 5 sets each of its keys as the lens says, and the other runs leave it alone. */
  lemma ContentInRuns(m: Patch, cur: AndroidTextInputProps, prior: AndroidTextInputProps, k: PatchKey)
    requires k == MaxLengthKey || k == TextKey || k == MostRecentEventCountKey
    ensures ValueAt(RunsFirst(m, RunCount, cur, prior), k)
         == if FieldChanged(cur, prior, k) then Some(FieldValue(cur, k)) else ValueAt(m, k)
  {
    ContentKeysAvoided(k);
    var p: nat;
    if k == MaxLengthKey {
      p := 0;
      MaxLengthComparison(cur, prior);
    } else if k == TextKey {
      p := 1;
      TextComparison(cur, prior);
    } else {
      p := 2;
      MostRecentEventCountComparison(cur, prior);
    }
    RunsKeep0To4(m, cur, prior, k);
    RunsFirstSole(m, 5, p, cur, prior, k);
    RunsKeep6To15(m, cur, prior, k);
  }

  lemma AutoFocusComparison(cur: AndroidTextInputProps, prior: AndroidTextInputProps)
    ensures SoleInRun(cur, prior, AutoFocusKey, 6, 0)
    ensures Run(6, cur, prior)[0] == Comparison(AutoFocusKey, FieldChanged(cur, prior, AutoFocusKey), FieldValue(cur, AutoFocusKey))
  {
  }

  lemma AutoCapitalizeComparison(cur: AndroidTextInputProps, prior: AndroidTextInputProps)
    ensures SoleInRun(cur, prior, AutoCapitalizeKey, 6, 1)
    ensures Run(6, cur, prior)[1] == Comparison(AutoCapitalizeKey, FieldChanged(cur, prior, AutoCapitalizeKey), FieldValue(cur, AutoCapitalizeKey))
  {
  }

  lemma EditableComparison(cur: AndroidTextInputProps, prior: AndroidTextInputProps)
    ensures SoleInRun(cur, prior, EditableKey, 6, 2)
    ensures Run(6, cur, prior)[2] == Comparison(EditableKey, FieldChanged(cur, prior, EditableKey), FieldValue(cur, EditableKey))
  {
  }

  lemma ReadOnlyComparison(cur: AndroidTextInputProps, prior: AndroidTextInputProps)
    ensures SoleInRun(cur, prior, ReadOnlyKey, 6, 3)
    ensures Run(6, cur, prior)[3] == Comparison(ReadOnlyKey, FieldChanged(cur, prior, ReadOnlyKey), FieldValue(cur, ReadOnlyKey))
  {
  }

  /** No run but run 6 compares under these keys. */
  lemma EditingKeysAvoided(k: PatchKey)
    requires k == AutoFocusKey || k == AutoCapitalizeKey || k == EditableKey || k == ReadOnlyKey
    ensures forall h :: 0 <= h < RunCount && h != 6 ==> RunAvoids(h, k)
  {
  }

  /** Run 6 sets each of its keys as the lens says, and the other runs leave it alone. */
  lemma EditingInRuns(m: Patch, cur: AndroidTextInputProps, prior: AndroidTextInputProps, k: PatchKey)
    requires k == AutoFocusKey || k == AutoCapitalizeKey || k == EditableKey || k == ReadOnlyKey
    ensures ValueAt(RunsFirst(m, RunCount, cur, prior), k)
         == if FieldChanged(cur, prior, k) then Some(FieldValue(cur, k)) else ValueAt(m, k)
  {
    EditingKeysAvoided(k);
    var p: nat;
    if k == AutoFocusKey {
      p := 0;
      AutoFocusComparison(cur, prior);
    } else if k == AutoCapitalizeKey {
      p := 1;
      AutoCapitalizeComparison(cur, prior);
    } else if k == EditableKey {
      p := 2;
      EditableComparison(cur, prior);
    } else {
      p := 3;
      ReadOnlyComparison(cur, prior);
    }
    RunsKeep0To5(m, cur, prior, k);
    RunsFirstSole(m, 6, p, cur, prior, k);
    RunsKeep7To15(m, cur, prior, k);
  }

  lemma SubmitBehaviorComparison(cur: AndroidTextInputProps, prior: AndroidTextInputProps)
    ensures SoleInRun(cur, prior, SubmitBehaviorKey, 7, 0)
    ensures Run(7, cur, prior)[0] == Comparison(SubmitBehaviorKey, FieldChanged(cur, prior, SubmitBehaviorKey), FieldValue(cur, SubmitBehaviorKey))
  {
  }

  lemma MultilineComparison(cur: AndroidTextInputProps, prior: AndroidTextInputProps)
    ensures SoleInRun(cur, prior, MultilineKey, 7, 1)
    ensures Run(7, cur, prior)[1] == Comparison(MultilineKey, FieldChanged(cur, prior, MultilineKey), FieldValue(cur, MultilineKey))
  {
  }

  lemma DisableKeyboardShortcutsComparison(cur: AndroidTextInputProps, prior: AndroidTextInputProps)
    ensures SoleInRun(cur, prior, DisableKeyboardShortcutsKey, 7, 2)
    ensures Run(7, cur, prior)[2] == Comparison(DisableKeyboardShortcutsKey, FieldChanged(cur, prior, DisableKeyboardShortcutsKey), FieldValue(cur, DisableKeyboardShortcutsKey))
  {
  }

  lemma AcceptDragAndDropTypesComparison(cur: AndroidTextInputProps, prior: AndroidTextInputProps)
    ensures SoleInRun(cur, prior, AcceptDragAndDropTypesKey, 7, 3)
    ensures Run(7, cur, prior)[3] == Comparison(AcceptDragAndDropTypesKey, FieldChanged(cur, prior, AcceptDragAndDropTypesKey), FieldValue(cur, AcceptDragAndDropTypesKey))
  {
  }

  /** No run but run 7 compares under these keys. */
  lemma SubmissionKeysAvoided(k: PatchKey)
    requires k == SubmitBehaviorKey || k == MultilineKey || k == DisableKeyboardShortcutsKey || k == AcceptDragAndDropTypesKey
    ensures forall h :: 0 <= h < RunCount && h != 7 ==> RunAvoids(h, k)
  {
  }

  /** Run 7 sets each of its keys as the lens says, and the other runs leave it alone. */
  lemma SubmissionInRuns(m: Patch, cur: AndroidTextInputProps, prior: AndroidTextInputProps, k: PatchKey)
    requires k == SubmitBehaviorKey || k == MultilineKey || k == DisableKeyboardShortcutsKey || k == AcceptDragAndDropTypesKey
    ensures ValueAt(RunsFirst(m, RunCount, cur, prior), k)
         == if FieldChanged(cur, prior, k) then Some(FieldValue(cur, k)) else ValueAt(m, k)
  {
    SubmissionKeysAvoided(k);
    var p: nat;
    if k == SubmitBehaviorKey {
      p := 0;
      SubmitBehaviorComparison(cur, prior);
    } else if k == MultilineKey {
      p := 1;
      MultilineComparison(cur, prior);
    } else if k == DisableKeyboardShortcutsKey {
      p := 2;
      DisableKeyboardShortcutsComparison(cur, prior);
    } else {
      p := 3;
      AcceptDragAndDropTypesComparison(cur, prior);
    }
    RunsKeep0To6(m, cur, prior, k);
    RunsFirstSole(m, 7, p, cur, prior, k);
    RunsKeep8To15(m, cur, prior, k);
  }

  lemma AutoCompleteComparison(cur: AndroidTextInputProps, prior: AndroidTextInputProps)
    ensures SoleInRun(cur, prior, Own(AutoComplete), 8, 0)
    ensures Run(8, cur, prior)[0] == Comparison(Own(AutoComplete), FieldChanged(cur, prior, Own(AutoComplete)), FieldValue(cur, Own(AutoComplete)))
  {
  }

  lemma ReturnKeyLabelComparison(cur: AndroidTextInputProps, prior: AndroidTextInputProps)
    ensures SoleInRun(cur, prior, Own(ReturnKeyLabel), 8, 1)
    ensures Run(8, cur, prior)[1] == Comparison(Own(ReturnKeyLabel), FieldChanged(cur, prior, Own(ReturnKeyLabel)), FieldValue(cur, Own(ReturnKeyLabel)))
  {
  }

  lemma DisableFullscreenUIComparison(cur: AndroidTextInputProps, prior: AndroidTextInputProps)
    ensures SoleInRun(cur, prior, Own(DisableFullscreenUI), 8, 3)
    ensures Run(8, cur, prior)[3] == Comparison(Own(DisableFullscreenUI), FieldChanged(cur, prior, Own(DisableFullscreenUI)), FieldValue(cur, Own(DisableFullscreenUI)))
  {
  }

  /** No run but run 8 compares under these keys. */
  lemma AutofillKeysAvoided(k: PatchKey)
    requires k == Own(AutoComplete) || k == Own(ReturnKeyLabel) || k == Own(DisableFullscreenUI)
    ensures forall h :: 0 <= h < RunCount && h != 8 ==> RunAvoids(h, k)
  {
  }

  /** Run 8 sets each of its keys as the lens says, and the other runs leave it alone. */
  lemma AutofillInRuns(m: Patch, cur: AndroidTextInputProps, prior: AndroidTextInputProps, k: PatchKey)
    requires k == Own(AutoComplete) || k == Own(ReturnKeyLabel) || k == Own(DisableFullscreenUI)
    ensures ValueAt(RunsFirst(m, RunCount, cur, prior), k)
         == if FieldChanged(cur, prior, k) then Some(FieldValue(cur, k)) else ValueAt(m, k)
  {
    AutofillKeysAvoided(k);
    var p: nat;
    if k == Own(AutoComplete) {
      p := 0;
      AutoCompleteComparison(cur, prior);
    } else if k == Own(ReturnKeyLabel) {
      p := 1;
      ReturnKeyLabelComparison(cur, prior);
    } else {
      p := 3;
      DisableFullscreenUIComparison(cur, prior);
    }
    RunsKeep0To7(m, cur, prior, k);
    RunsFirstSole(m, 8, p, cur, prior, k);
    RunsKeep9To15(m, cur, prior, k);
  }

  lemma InlineImageLeftComparison(cur: AndroidTextInputProps, prior: AndroidTextInputProps)
    ensures SoleInRun(cur, prior, Own(InlineImageLeft), 9, 1)
    ensures Run(9, cur, prior)[1] == Comparison(Own(InlineImageLeft), FieldChanged(cur, prior, Own(InlineImageLeft)), FieldValue(cur, Own(InlineImageLeft)))
  {
  }

  lemma InlineImagePaddingComparison(cur: AndroidTextInputProps, prior: AndroidTextInputProps)
    ensures SoleInRun(cur, prior, Own(InlineImagePadding), 9, 2)
    ensures Run(9, cur, prior)[2] == Comparison(Own(InlineImagePadding), FieldChanged(cur, prior, Own(InlineImagePadding)), FieldValue(cur, Own(InlineImagePadding)))
  {
  }

  lemma ImportantForAutofillComparison(cur: AndroidTextInputProps, prior: AndroidTextInputProps)
    ensures SoleInRun(cur, prior, Own(ImportantForAutofill), 9, 3)
    ensures Run(9, cur, prior)[3] == Comparison(Own(ImportantForAutofill), FieldChanged(cur, prior, Own(ImportantForAutofill)), FieldValue(cur, Own(ImportantForAutofill)))
  {
  }

  /** No run but run 9 compares under these keys. */
  lemma InlineImageKeysAvoided(k: PatchKey)
    requires k == Own(InlineImageLeft) || k == Own(InlineImagePadding) || k == Own(ImportantForAutofill)
    ensures forall h :: 0 <= h < RunCount && h != 9 ==> RunAvoids(h, k)
  {
  }

  /** Run 9 sets each of its keys as the lens says, and the other runs leave it alone. */
  lemma InlineImageInRuns(m: Patch, cur: AndroidTextInputProps, prior: AndroidTextInputProps, k: PatchKey)
    requires k == Own(InlineImageLeft) || k == Own(InlineImagePadding) || k == Own(ImportantForAutofill)
    ensures ValueAt(RunsFirst(m, RunCount, cur, prior), k)
         == if FieldChanged(cur, prior, k) then Some(FieldValue(cur, k)) else ValueAt(m, k)
  {
    InlineImageKeysAvoided(k);
    var p: nat;
    if k == Own(InlineImageLeft) {
      p := 1;
      InlineImageLeftComparison(cur, prior);
    } else if k == Own(InlineImagePadding) {
      p := 2;
      InlineImagePaddingComparison(cur, prior);
    } else {
      p := 3;
      ImportantForAutofillComparison(cur, prior);
    }
    RunsKeep0To8(m, cur, prior, k);
    RunsFirstSole(m, 9, p, cur, prior, k);
    RunsKeep10To15(m, cur, prior, k);
  }

  lemma ShowSoftInputOnFocusComparison(cur: AndroidTextInputProps, prior: AndroidTextInputProps)
    ensures SoleInRun(cur, prior, Own(ShowSoftInputOnFocus), 10, 0)
    ensures Run(10, cur, prior)[0] == Comparison(Own(ShowSoftInputOnFocus), FieldChanged(cur, prior, Own(ShowSoftInputOnFocus)), FieldValue(cur, Own(ShowSoftInputOnFocus)))
  {
  }

  lemma AutoCorrectComparison(cur: AndroidTextInputProps, prior: AndroidTextInputProps)
    ensures SoleInRun(cur, prior, Own(AutoCorrect), 10, 1)
    ensures Run(10, cur, prior)[1] == Comparison(Own(AutoCorrect), FieldChanged(cur, prior, Own(AutoCorrect)), FieldValue(cur, Own(AutoCorrect)))
  {
  }

  lemma AllowFontScalingComparison(cur: AndroidTextInputProps, prior: AndroidTextInputProps)
    ensures SoleInRun(cur, prior, Own(AllowFontScaling), 10, 2)
    ensures Run(10, cur, prior)[2] == Comparison(Own(AllowFontScaling), FieldChanged(cur, prior, Own(AllowFontScaling)), FieldValue(cur, Own(AllowFontScaling)))
  {
  }

  lemma MaxFontSizeMultiplierComparison(cur: AndroidTextInputProps, prior: AndroidTextInputProps)
    ensures SoleInRun(cur, prior, Own(MaxFontSizeMultiplier), 10, 3)
    ensures Run(10, cur, prior)[3] == Comparison(Own(MaxFontSizeMultiplier), FieldChanged(cur, prior, Own(MaxFontSizeMultiplier)), FieldValue(cur, Own(MaxFontSizeMultiplier)))
  {
  }

  /** No run but run 10 compares under these keys. */
  lemma InputBehaviourKeysAvoided(k: PatchKey)
    requires k == Own(ShowSoftInputOnFocus) || k == Own(AutoCorrect) || k == Own(AllowFontScaling) || k == Own(MaxFontSizeMultiplier)
    ensures forall h :: 0 <= h < RunCount && h != 10 ==> RunAvoids(h, k)
  {
  }

  /** Run 10 sets each of its keys as the lens says, and the other runs leave it alone. */
  lemma InputBehaviourInRuns(m: Patch, cur: AndroidTextInputProps, prior: AndroidTextInputProps, k: PatchKey)
    requires k == Own(ShowSoftInputOnFocus) || k == Own(AutoCorrect) || k == Own(AllowFontScaling) || k == Own(MaxFontSizeMultiplier)
    ensures ValueAt(RunsFirst(m, RunCount, cur, prior), k)
         == if FieldChanged(cur, prior, k) then Some(FieldValue(cur, k)) else ValueAt(m, k)
  {
    InputBehaviourKeysAvoided(k);
    var p: nat;
    if k == Own(ShowSoftInputOnFocus) {
      p := 0;
      ShowSoftInputOnFocusComparison(cur, prior);
    } else if k == Own(AutoCorrect) {
      p := 1;
      AutoCorrectComparison(cur, prior);
    } else if k == Own(AllowFontScaling) {
      p := 2;
      AllowFontScalingComparison(cur, prior);
    } else {
      p := 3;
      MaxFontSizeMultiplierComparison(cur, prior);
    }
    RunsKeep0To9(m, cur, prior, k);
    RunsFirstSole(m, 10, p, cur, prior, k);
    RunsKeep11To15(m, cur, prior, k);
  }

  lemma KeyboardTypeComparison(cur: AndroidTextInputProps, prior: AndroidTextInputProps)
    ensures SoleInRun(cur, prior, Own(KeyboardType), 11, 0)
    ensures Run(11, cur, prior)[0] == Comparison(Own(KeyboardType), FieldChanged(cur, prior, Own(KeyboardType)), FieldValue(cur, Own(KeyboardType)))
  {
  }

  lemma ReturnKeyTypeComparison(cur: AndroidTextInputProps, prior: AndroidTextInputProps)
    ensures SoleInRun(cur, prior, Own(ReturnKeyType), 11, 1)
    ensures Run(11, cur, prior)[1] == Comparison(Own(ReturnKeyType), FieldChanged(cur, prior, Own(ReturnKeyType)), FieldValue(cur, Own(ReturnKeyType)))
  {
  }

  lemma SecureTextEntryComparison(cur: AndroidTextInputProps, prior: AndroidTextInputProps)
    ensures SoleInRun(cur, prior, Own(SecureTextEntry), 11, 2)
    ensures Run(11, cur, prior)[2] == Comparison(Own(SecureTextEntry), FieldChanged(cur, prior, Own(SecureTextEntry)), FieldValue(cur, Own(SecureTextEntry)))
  {
  }

  lemma ValueComparison(cur: AndroidTextInputProps, prior: AndroidTextInputProps)
    ensures SoleInRun(cur, prior, Own(Value), 11, 3)
    ensures Run(11, cur, prior)[3] == Comparison(Own(Value), FieldChanged(cur, prior, Own(Value)), FieldValue(cur, Own(Value)))
  {
  }

  /** No run but run 11 compares under these keys. */
  lemma KeyboardKeysAvoided(k: PatchKey)
    requires k == Own(KeyboardType) || k == Own(ReturnKeyType) || k == Own(SecureTextEntry) || k == Own(Value)
    ensures forall h :: 0 <= h < RunCount && h != 11 ==> RunAvoids(h, k)
  {
  }

  /** Run 11 sets each of its keys as the lens says, and the other runs leave it alone. */
  lemma KeyboardInRuns(m: Patch, cur: AndroidTextInputProps, prior: AndroidTextInputProps, k: PatchKey)
    requires k == Own(KeyboardType) || k == Own(ReturnKeyType) || k == Own(SecureTextEntry) || k == Own(Value)
    ensures ValueAt(RunsFirst(m, RunCount, cur, prior), k)
         == if FieldChanged(cur, prior, k) then Some(FieldValue(cur, k)) else ValueAt(m, k)
  {
    KeyboardKeysAvoided(k);
    var p: nat;
    if k == Own(KeyboardType) {
      p := 0;
      KeyboardTypeComparison(cur, prior);
    } else if k == Own(ReturnKeyType) {
      p := 1;
      ReturnKeyTypeComparison(cur, prior);
    } else if k == Own(SecureTextEntry) {
      p := 2;
      SecureTextEntryComparison(cur, prior);
    } else {
      p := 3;
      ValueComparison(cur, prior);
    }
    RunsKeep0To10(m, cur, prior, k);
    RunsFirstSole(m, 11, p, cur, prior, k);
    RunsKeep12To15(m, cur, prior, k);
  }

  lemma SelectTextOnFocusComparison(cur: AndroidTextInputProps, prior: AndroidTextInputProps)
    ensures SoleInRun(cur, prior, Own(SelectTextOnFocus), 12, 0)
    ensures Run(12, cur, prior)[0] == Comparison(Own(SelectTextOnFocus), FieldChanged(cur, prior, Own(SelectTextOnFocus)), FieldValue(cur, Own(SelectTextOnFocus)))
  {
  }

  lemma CaretHiddenComparison(cur: AndroidTextInputProps, prior: AndroidTextInputProps)
    ensures SoleInRun(cur, prior, Own(CaretHidden), 12, 1)
    ensures Run(12, cur, prior)[1] == Comparison(Own(CaretHidden), FieldChanged(cur, prior, Own(CaretHidden)), FieldValue(cur, Own(CaretHidden)))
  {
  }

  lemma ContextMenuHiddenComparison(cur: AndroidTextInputProps, prior: AndroidTextInputProps)
    ensures SoleInRun(cur, prior, Own(ContextMenuHidden), 12, 2)
    ensures Run(12, cur, prior)[2] == Comparison(Own(ContextMenuHidden), FieldChanged(cur, prior, Own(ContextMenuHidden)), FieldValue(cur, Own(ContextMenuHidden)))
  {
  }

  /** No run but run 12 compares under these keys. */
  lemma SelectionKeysAvoided(k: PatchKey)
    requires k == Own(SelectTextOnFocus) || k == Own(CaretHidden) || k == Own(ContextMenuHidden)
    ensures forall h :: 0 <= h < RunCount && h != 12 ==> RunAvoids(h, k)
  {
  }

  /** Run 12 sets each of its keys as the lens says, and the other runs leave it alone. */
  lemma SelectionInRuns(m: Patch, cur: AndroidTextInputProps, prior: AndroidTextInputProps, k: PatchKey)
    requires k == Own(SelectTextOnFocus) || k == Own(CaretHidden) || k == Own(ContextMenuHidden)
    ensures ValueAt(RunsFirst(m, RunCount, cur, prior), k)
         == if FieldChanged(cur, prior, k) then Some(FieldValue(cur, k)) else ValueAt(m, k)
  {
    SelectionKeysAvoided(k);
    var p: nat;
    if k == Own(SelectTextOnFocus) {
      p := 0;
      SelectTextOnFocusComparison(cur, prior);
    } else if k == Own(CaretHidden) {
      p := 1;
      CaretHiddenComparison(cur, prior);
    } else {
      p := 2;
      ContextMenuHiddenComparison(cur, prior);
    }
    RunsKeep0To11(m, cur, prior, k);
    RunsFirstSole(m, 12, p, cur, prior, k);
    RunsKeep13To15(m, cur, prior, k);
  }

  lemma TextShadowColorComparison(cur: AndroidTextInputProps, prior: AndroidTextInputProps)
    ensures SoleInRun(cur, prior, Own(TextShadowColor), 13, 0)
    ensures Run(13, cur, prior)[0] == Comparison(Own(TextShadowColor), FieldChanged(cur, prior, Own(TextShadowColor)), FieldValue(cur, Own(TextShadowColor)))
  {
  }

  lemma TextShadowRadiusComparison(cur: AndroidTextInputProps, prior: AndroidTextInputProps)
    ensures SoleInRun(cur, prior, Own(TextShadowRadius), 13, 1)
    ensures Run(13, cur, prior)[1] == Comparison(Own(TextShadowRadius), FieldChanged(cur, prior, Own(TextShadowRadius)), FieldValue(cur, Own(TextShadowRadius)))
  {
  }

  lemma TextDecorationLineComparison(cur: AndroidTextInputProps, prior: AndroidTextInputProps)
    ensures SoleInRun(cur, prior, Own(TextDecorationLine), 13, 2)
    ensures Run(13, cur, prior)[2] == Comparison(Own(TextDecorationLine), FieldChanged(cur, prior, Own(TextDecorationLine)), FieldValue(cur, Own(TextDecorationLine)))
  {
  }

  lemma FontStyleComparison(cur: AndroidTextInputProps, prior: AndroidTextInputProps)
    ensures SoleInRun(cur, prior, Own(FontStyle), 13, 3)
    ensures Run(13, cur, prior)[3] == Comparison(Own(FontStyle), FieldChanged(cur, prior, Own(FontStyle)), FieldValue(cur, Own(FontStyle)))
  {
  }

  lemma TextShadowOffsetComparison(cur: AndroidTextInputProps, prior: AndroidTextInputProps)
    ensures SoleInRun(cur, prior, Own(TextShadowOffset), 13, 4)
    ensures Run(13, cur, prior)[4] == Comparison(Own(TextShadowOffset), FieldChanged(cur, prior, Own(TextShadowOffset)), FieldValue(cur, Own(TextShadowOffset)))
  {
  }

  /** No run but run 13 compares under these keys. */
  lemma TextShadowKeysAvoided(k: PatchKey)
    requires k == Own(TextShadowColor) || k == Own(TextShadowRadius) || k == Own(TextDecorationLine) || k == Own(FontStyle) || k == Own(TextShadowOffset)
    ensures forall h :: 0 <= h < RunCount && h != 13 ==> RunAvoids(h, k)
  {
  }

  /** Run 13 sets each of its keys as the lens says, and the other runs leave it alone. */
  lemma TextShadowInRuns(m: Patch, cur: AndroidTextInputProps, prior: AndroidTextInputProps, k: PatchKey)
    requires k == Own(TextShadowColor) || k == Own(TextShadowRadius) || k == Own(TextDecorationLine) || k == Own(FontStyle) || k == Own(TextShadowOffset)
    ensures ValueAt(RunsFirst(m, RunCount, cur, prior), k)
         == if FieldChanged(cur, prior, k) then Some(FieldValue(cur, k)) else ValueAt(m, k)
  {
    TextShadowKeysAvoided(k);
    var p: nat;
    if k == Own(TextShadowColor) {
      p := 0;
      TextShadowColorComparison(cur, prior);
    } else if k == Own(TextShadowRadius) {
      p := 1;
      TextShadowRadiusComparison(cur, prior);
    } else if k == Own(TextDecorationLine) {
      p := 2;
      TextDecorationLineComparison(cur, prior);
    } else if k == Own(FontStyle) {
      p := 3;
      FontStyleComparison(cur, prior);
    } else {
      p := 4;
      TextShadowOffsetComparison(cur, prior);
    }
    RunsKeep0To12(m, cur, prior, k);
    RunsFirstSole(m, 13, p, cur, prior, k);
    RunsKeep14To15(m, cur, prior, k);
  }

  lemma LineHeightComparison(cur: AndroidTextInputProps, prior: AndroidTextInputProps)
    ensures SoleInRun(cur, prior, Own(LineHeight), 14, 0)
    ensures Run(14, cur, prior)[0] == Comparison(Own(LineHeight), FieldChanged(cur, prior, Own(LineHeight)), FieldValue(cur, Own(LineHeight)))
  {
  }

  lemma TextTransformComparison(cur: AndroidTextInputProps, prior: AndroidTextInputProps)
    ensures SoleInRun(cur, prior, Own(TextTransform), 14, 1)
    ensures Run(14, cur, prior)[1] == Comparison(Own(TextTransform), FieldChanged(cur, prior, Own(TextTransform)), FieldValue(cur, Own(TextTransform)))
  {
  }

  lemma LetterSpacingComparison(cur: AndroidTextInputProps, prior: AndroidTextInputProps)
    ensures SoleInRun(cur, prior, Own(LetterSpacing), 14, 2)
    ensures Run(14, cur, prior)[2] == Comparison(Own(LetterSpacing), FieldChanged(cur, prior, Own(LetterSpacing)), FieldValue(cur, Own(LetterSpacing)))
  {
  }

  lemma FontSizeComparison(cur: AndroidTextInputProps, prior: AndroidTextInputProps)
    ensures SoleInRun(cur, prior, Own(FontSize), 14, 3)
    ensures Run(14, cur, prior)[3] == Comparison(Own(FontSize), FieldChanged(cur, prior, Own(FontSize)), FieldValue(cur, Own(FontSize)))
  {
  }

  /** No run but run 14 compares under these keys. */
  lemma TextMetricsKeysAvoided(k: PatchKey)
    requires k == Own(LineHeight) || k == Own(TextTransform) || k == Own(LetterSpacing) || k == Own(FontSize)
    ensures forall h :: 0 <= h < RunCount && h != 14 ==> RunAvoids(h, k)
  {
  }

  /** Run 14 sets each of its keys as the lens says, and the other runs leave it alone. */
  lemma TextMetricsInRuns(m: Patch, cur: AndroidTextInputProps, prior: AndroidTextInputProps, k: PatchKey)
    requires k == Own(LineHeight) || k == Own(TextTransform) || k == Own(LetterSpacing) || k == Own(FontSize)
    ensures ValueAt(RunsFirst(m, RunCount, cur, prior), k)
         == if FieldChanged(cur, prior, k) then Some(FieldValue(cur, k)) else ValueAt(m, k)
  {
    TextMetricsKeysAvoided(k);
    var p: nat;
    if k == Own(LineHeight) {
      p := 0;
      LineHeightComparison(cur, prior);
    } else if k == Own(TextTransform) {
      p := 1;
      TextTransformComparison(cur, prior);
    } else if k == Own(LetterSpacing) {
      p := 2;
      LetterSpacingComparison(cur, prior);
    } else {
      p := 3;
      FontSizeComparison(cur, prior);
    }
    RunsKeep0To13(m, cur, prior, k);
    RunsFirstSole(m, 14, p, cur, prior, k);
    RunsKeep15To15(m, cur, prior, k);
  }

  lemma TextAlignComparison(cur: AndroidTextInputProps, prior: AndroidTextInputProps)
    ensures SoleInRun(cur, prior, Own(TextAlign), 15, 0)
    ensures Run(15, cur, prior)[0] == Comparison(Own(TextAlign), FieldChanged(cur, prior, Own(TextAlign)), FieldValue(cur, Own(TextAlign)))
  {
  }

  lemma FontWeightComparison(cur: AndroidTextInputProps, prior: AndroidTextInputProps)
    ensures SoleInRun(cur, prior, Own(FontWeight), 15, 2)
    ensures Run(15, cur, prior)[2] == Comparison(Own(FontWeight), FieldChanged(cur, prior, Own(FontWeight)), FieldValue(cur, Own(FontWeight)))
  {
  }

  lemma FontFamilyComparison(cur: AndroidTextInputProps, prior: AndroidTextInputProps)
    ensures SoleInRun(cur, prior, Own(FontFamily), 15, 3)
    ensures Run(15, cur, prior)[3] == Comparison(Own(FontFamily), FieldChanged(cur, prior, Own(FontFamily)), FieldValue(cur, Own(FontFamily)))
  {
  }

  /** No run but run 15 compares under these keys. */
  lemma FontKeysAvoided(k: PatchKey)
    requires k == Own(TextAlign) || k == Own(FontWeight) || k == Own(FontFamily)
    ensures forall h :: 0 <= h < RunCount && h != 15 ==> RunAvoids(h, k)
  {
  }

  /** Run 15 sets each of its keys as the lens says, and the other runs leave it alone. */
  lemma FontInRuns(m: Patch, cur: AndroidTextInputProps, prior: AndroidTextInputProps, k: PatchKey)
    requires k == Own(TextAlign) || k == Own(FontWeight) || k == Own(FontFamily)
    ensures ValueAt(RunsFirst(m, RunCount, cur, prior), k)
         == if FieldChanged(cur, prior, k) then Some(FieldValue(cur, k)) else ValueAt(m, k)
  {
    FontKeysAvoided(k);
    var p: nat;
    if k == Own(TextAlign) {
      p := 0;
      TextAlignComparison(cur, prior);
    } else if k == Own(FontWeight) {
      p := 2;
      FontWeightComparison(cur, prior);
    } else {
      p := 3;
      FontFamilyComparison(cur, prior);
    }
    RunsKeep0To14(m, cur, prior, k);
    RunsFirstSole(m, 15, p, cur, prior, k);
  }

  /** The runs replayed onto `m` set a key written once as its only comparison does. */
  lemma SingleWriterInRuns(m: Patch, cur: AndroidTextInputProps, prior: AndroidTextInputProps, k: PatchKey)
    requires WrittenOnce(k)
    ensures ValueAt(RunsFirst(m, RunCount, cur, prior), k)
         == if FieldChanged(cur, prior, k) then Some(FieldValue(cur, k)) else ValueAt(m, k)
  {
    match k
    case EllipsizeModeKey =>
      LineBreakingInRuns(m, cur, prior, k);
    case AdjustsFontSizeToFitKey | MinimumFontSizeKey | MaximumFontSizeKey =>
      FontSizingInRuns(m, cur, prior, k);
    case HyphenationFrequencyKey | TextAlignVerticalKey =>
      ParagraphLayoutInRuns(m, cur, prior, k);
    case DefaultValueKey | PlaceholderKey =>
      InitialTextInRuns(m, cur, prior, k);
    case PlaceholderTextColorKey | CursorColorKey | SelectionColorKey | SelectionHandleColorKey | UnderlineColorAndroidKey =>
      ColorsInRuns(m, cur, prior, k);
    case MaxLengthKey | TextKey | MostRecentEventCountKey =>
      ContentInRuns(m, cur, prior, k);
    case AutoFocusKey | AutoCapitalizeKey | EditableKey | ReadOnlyKey =>
      EditingInRuns(m, cur, prior, k);
    case SubmitBehaviorKey | MultilineKey | DisableKeyboardShortcutsKey | AcceptDragAndDropTypesKey =>
      SubmissionInRuns(m, cur, prior, k);
    case Own(AutoComplete) | Own(ReturnKeyLabel) | Own(DisableFullscreenUI) =>
      AutofillInRuns(m, cur, prior, k);
    case Own(InlineImageLeft) | Own(InlineImagePadding) | Own(ImportantForAutofill) =>
      InlineImageInRuns(m, cur, prior, k);
    case Own(ShowSoftInputOnFocus) | Own(AutoCorrect) | Own(AllowFontScaling) | Own(MaxFontSizeMultiplier) =>
      InputBehaviourInRuns(m, cur, prior, k);
    case Own(KeyboardType) | Own(ReturnKeyType) | Own(SecureTextEntry) | Own(Value) =>
      KeyboardInRuns(m, cur, prior, k);
    case Own(SelectTextOnFocus) | Own(CaretHidden) | Own(ContextMenuHidden) =>
      SelectionInRuns(m, cur, prior, k);
    case Own(TextShadowColor) | Own(TextShadowRadius) | Own(TextDecorationLine) | Own(FontStyle) | Own(TextShadowOffset) =>
      TextShadowInRuns(m, cur, prior, k);
    case Own(LineHeight) | Own(TextTransform) | Own(LetterSpacing) | Own(FontSize) =>
      TextMetricsInRuns(m, cur, prior, k);
    case Own(TextAlign) | Own(FontWeight) | Own(FontFamily) =>
      FontInRuns(m, cur, prior, k);
    case _ =>
      assert false;
  }

  /**
   * The key rule for every key written once: the patch holds the current
   * field's value when the field changed, and otherwise what the view layer's
   * patch holds.
   */
  lemma SingleWriterRule(cur: AndroidTextInputProps, prior: AndroidTextInputProps,
      viewDiff: (AndroidTextInputProps, AndroidTextInputProps) -> Patch, k: PatchKey)
    requires WrittenOnce(k)
    ensures ValueAt(DiffAgainst(cur, prior, viewDiff), k)
         == if FieldChanged(cur, prior, k) then Some(FieldValue(cur, k)) else ValueAt(viewDiff(cur, prior), k)
  {
    DiffIsRunsFirst(cur, prior, viewDiff);
    SingleWriterInRuns(viewDiff(cur, prior), cur, prior, k);
  }

  // The keys written twice.

  lemma NumberOfLinesFromParagraph(cur: AndroidTextInputProps, prior: AndroidTextInputProps)
    ensures SoleInRun(cur, prior, Own(NumberOfLines), 0, 0)
    ensures Run(0, cur, prior)[0] == Comparison(Own(NumberOfLines), cur.base.paragraphAttributes.maximumNumberOfLines != prior.base.paragraphAttributes.maximumNumberOfLines, VInt(cur.base.paragraphAttributes.maximumNumberOfLines))
  {
  }

  lemma NumberOfLinesFromOwn(cur: AndroidTextInputProps, prior: AndroidTextInputProps)
    ensures SoleInRun(cur, prior, Own(NumberOfLines), 8, 2)
    ensures Run(8, cur, prior)[2] == Comparison(Own(NumberOfLines), cur.fields.numberOfLines != prior.fields.numberOfLines, VInt(cur.fields.numberOfLines))
  {
  }

  lemma NumberOfLinesAvoided()
    ensures forall h :: 0 <= h < RunCount && h != 0 && h != 8 ==> RunAvoids(h, Own(NumberOfLines))
  {
  }

  lemma NumberOfLinesInRuns(m: Patch, cur: AndroidTextInputProps, prior: AndroidTextInputProps)
    ensures ValueAt(RunsFirst(m, RunCount, cur, prior), Own(NumberOfLines)) ==
      if cur.fields.numberOfLines != prior.fields.numberOfLines then Some(VInt(cur.fields.numberOfLines))
      else if cur.base.paragraphAttributes.maximumNumberOfLines != prior.base.paragraphAttributes.maximumNumberOfLines then Some(VInt(cur.base.paragraphAttributes.maximumNumberOfLines))
      else ValueAt(m, Own(NumberOfLines))
  {
    NumberOfLinesFromParagraph(cur, prior);
    NumberOfLinesFromOwn(cur, prior);
    NumberOfLinesAvoided();
    RunsFirstSole(m, 0, 0, cur, prior, Own(NumberOfLines));
    RunsKeep1To7(m, cur, prior, Own(NumberOfLines));
    RunsFirstSole(m, 8, 2, cur, prior, Own(NumberOfLines));
    RunsKeep9To15(m, cur, prior, Own(NumberOfLines));
  }

  /** `numberOfLines` is written twice: this layer's value wins when it changed, else the paragraph's `maximumNumberOfLines` when that changed. */
  lemma NumberOfLinesRule(cur: AndroidTextInputProps, prior: AndroidTextInputProps,
      viewDiff: (AndroidTextInputProps, AndroidTextInputProps) -> Patch)
    ensures ValueAt(DiffAgainst(cur, prior, viewDiff), Own(NumberOfLines)) ==
      if cur.fields.numberOfLines != prior.fields.numberOfLines then Some(VInt(cur.fields.numberOfLines))
      else if cur.base.paragraphAttributes.maximumNumberOfLines != prior.base.paragraphAttributes.maximumNumberOfLines then Some(VInt(cur.base.paragraphAttributes.maximumNumberOfLines))
      else ValueAt(viewDiff(cur, prior), Own(NumberOfLines))
  {
    DiffIsRunsFirst(cur, prior, viewDiff);
    NumberOfLinesInRuns(viewDiff(cur, prior), cur, prior);
  }

  lemma TextBreakStrategyFromParagraph(cur: AndroidTextInputProps, prior: AndroidTextInputProps)
    ensures SoleInRun(cur, prior, Own(TextBreakStrategy), 0, 2)
    ensures Run(0, cur, prior)[2] == Comparison(Own(TextBreakStrategy), cur.base.paragraphAttributes.textBreakStrategy != prior.base.paragraphAttributes.textBreakStrategy, VString(TextBreakStrategyName(cur.base.paragraphAttributes.textBreakStrategy)))
  {
  }

  lemma TextBreakStrategyFromOwn(cur: AndroidTextInputProps, prior: AndroidTextInputProps)
    ensures SoleInRun(cur, prior, Own(TextBreakStrategy), 9, 0)
    ensures Run(9, cur, prior)[0] == Comparison(Own(TextBreakStrategy), cur.fields.textBreakStrategy != prior.fields.textBreakStrategy, VString(cur.fields.textBreakStrategy))
  {
  }

  lemma TextBreakStrategyAvoided()
    ensures forall h :: 0 <= h < RunCount && h != 0 && h != 9 ==> RunAvoids(h, Own(TextBreakStrategy))
  {
  }

  lemma TextBreakStrategyInRuns(m: Patch, cur: AndroidTextInputProps, prior: AndroidTextInputProps)
    ensures ValueAt(RunsFirst(m, RunCount, cur, prior), Own(TextBreakStrategy)) ==
      if cur.fields.textBreakStrategy != prior.fields.textBreakStrategy then Some(VString(cur.fields.textBreakStrategy))
      else if cur.base.paragraphAttributes.textBreakStrategy != prior.base.paragraphAttributes.textBreakStrategy then Some(VString(TextBreakStrategyName(cur.base.paragraphAttributes.textBreakStrategy)))
      else ValueAt(m, Own(TextBreakStrategy))
  {
    TextBreakStrategyFromParagraph(cur, prior);
    TextBreakStrategyFromOwn(cur, prior);
    TextBreakStrategyAvoided();
    RunsFirstSole(m, 0, 2, cur, prior, Own(TextBreakStrategy));
    RunsKeep1To8(m, cur, prior, Own(TextBreakStrategy));
    RunsFirstSole(m, 9, 0, cur, prior, Own(TextBreakStrategy));
    RunsKeep10To15(m, cur, prior, Own(TextBreakStrategy));
  }

  /** `textBreakStrategy` is written twice: this layer's string wins when it changed, else the paragraph's strategy, by name, when that changed. */
  lemma TextBreakStrategyRule(cur: AndroidTextInputProps, prior: AndroidTextInputProps,
      viewDiff: (AndroidTextInputProps, AndroidTextInputProps) -> Patch)
    ensures ValueAt(DiffAgainst(cur, prior, viewDiff), Own(TextBreakStrategy)) ==
      if cur.fields.textBreakStrategy != prior.fields.textBreakStrategy then Some(VString(cur.fields.textBreakStrategy))
      else if cur.base.paragraphAttributes.textBreakStrategy != prior.base.paragraphAttributes.textBreakStrategy then Some(VString(TextBreakStrategyName(cur.base.paragraphAttributes.textBreakStrategy)))
      else ValueAt(viewDiff(cur, prior), Own(TextBreakStrategy))
  {
    DiffIsRunsFirst(cur, prior, viewDiff);
    TextBreakStrategyInRuns(viewDiff(cur, prior), cur, prior);
  }

  lemma IncludeFontPaddingFromParagraph(cur: AndroidTextInputProps, prior: AndroidTextInputProps)
    ensures SoleInRun(cur, prior, Own(IncludeFontPadding), 2, 0)
    ensures Run(2, cur, prior)[0] == Comparison(Own(IncludeFontPadding), cur.base.paragraphAttributes.includeFontPadding != prior.base.paragraphAttributes.includeFontPadding, VBool(cur.base.paragraphAttributes.includeFontPadding))
  {
  }

  lemma IncludeFontPaddingFromOwn(cur: AndroidTextInputProps, prior: AndroidTextInputProps)
    ensures SoleInRun(cur, prior, Own(IncludeFontPadding), 15, 1)
    ensures Run(15, cur, prior)[1] == Comparison(Own(IncludeFontPadding), cur.fields.includeFontPadding != prior.fields.includeFontPadding, VBool(cur.fields.includeFontPadding))
  {
  }

  lemma IncludeFontPaddingAvoided()
    ensures forall h :: 0 <= h < RunCount && h != 2 && h != 15 ==> RunAvoids(h, Own(IncludeFontPadding))
  {
  }

  lemma IncludeFontPaddingInRuns(m: Patch, cur: AndroidTextInputProps, prior: AndroidTextInputProps)
    ensures ValueAt(RunsFirst(m, RunCount, cur, prior), Own(IncludeFontPadding)) ==
      if cur.fields.includeFontPadding != prior.fields.includeFontPadding then Some(VBool(cur.fields.includeFontPadding))
      else if cur.base.paragraphAttributes.includeFontPadding != prior.base.paragraphAttributes.includeFontPadding then Some(VBool(cur.base.paragraphAttributes.includeFontPadding))
      else ValueAt(m, Own(IncludeFontPadding))
  {
    IncludeFontPaddingFromParagraph(cur, prior);
    IncludeFontPaddingFromOwn(cur, prior);
    IncludeFontPaddingAvoided();
    RunsKeep0To1(m, cur, prior, Own(IncludeFontPadding));
    RunsFirstSole(m, 2, 0, cur, prior, Own(IncludeFontPadding));
    RunsKeep3To14(m, cur, prior, Own(IncludeFontPadding));
    RunsFirstSole(m, 15, 1, cur, prior, Own(IncludeFontPadding));
  }

  /** `includeFontPadding` is written twice: this layer's value wins when it changed, else the paragraph's when that changed. */
  lemma IncludeFontPaddingRule(cur: AndroidTextInputProps, prior: AndroidTextInputProps,
      viewDiff: (AndroidTextInputProps, AndroidTextInputProps) -> Patch)
    ensures ValueAt(DiffAgainst(cur, prior, viewDiff), Own(IncludeFontPadding)) ==
      if cur.fields.includeFontPadding != prior.fields.includeFontPadding then Some(VBool(cur.fields.includeFontPadding))
      else if cur.base.paragraphAttributes.includeFontPadding != prior.base.paragraphAttributes.includeFontPadding then Some(VBool(cur.base.paragraphAttributes.includeFontPadding))
      else ValueAt(viewDiff(cur, prior), Own(IncludeFontPadding))
  {
    DiffIsRunsFirst(cur, prior, viewDiff);
    IncludeFontPaddingInRuns(viewDiff(cur, prior), cur, prior);
  }

  // The keys written once whose encoding is worth stating on its own.

  /** `textAlignVertical` is written when it changed, as null when it became absent. */
  lemma TextAlignVerticalRule(cur: AndroidTextInputProps, prior: AndroidTextInputProps,
      viewDiff: (AndroidTextInputProps, AndroidTextInputProps) -> Patch)
    ensures ValueAt(DiffAgainst(cur, prior, viewDiff), TextAlignVerticalKey) ==
      if cur.base.paragraphAttributes.textAlignVertical != prior.base.paragraphAttributes.textAlignVertical then Some(AlignmentValue(cur.base.paragraphAttributes.textAlignVertical))
      else ValueAt(viewDiff(cur, prior), TextAlignVerticalKey)
  {
    SingleWriterRule(cur, prior, viewDiff, TextAlignVerticalKey);
  }

  /** `minimumFontSize` is written only when it moved by at least the tolerance of `floatEquality`. */
  lemma MinimumFontSizeRule(cur: AndroidTextInputProps, prior: AndroidTextInputProps,
      viewDiff: (AndroidTextInputProps, AndroidTextInputProps) -> Patch)
    ensures ValueAt(DiffAgainst(cur, prior, viewDiff), MinimumFontSizeKey) ==
      if !FloatEquality(cur.base.paragraphAttributes.minimumFontSize, prior.base.paragraphAttributes.minimumFontSize) then Some(VReal(cur.base.paragraphAttributes.minimumFontSize))
      else ValueAt(viewDiff(cur, prior), MinimumFontSizeKey)
  {
    SingleWriterRule(cur, prior, viewDiff, MinimumFontSizeKey);
  }

  /** `maximumFontSize` is written only when it moved by at least the tolerance of `floatEquality`. */
  lemma MaximumFontSizeRule(cur: AndroidTextInputProps, prior: AndroidTextInputProps,
      viewDiff: (AndroidTextInputProps, AndroidTextInputProps) -> Patch)
    ensures ValueAt(DiffAgainst(cur, prior, viewDiff), MaximumFontSizeKey) ==
      if !FloatEquality(cur.base.paragraphAttributes.maximumFontSize, prior.base.paragraphAttributes.maximumFontSize) then Some(VReal(cur.base.paragraphAttributes.maximumFontSize))
      else ValueAt(viewDiff(cur, prior), MaximumFontSizeKey)
  {
    SingleWriterRule(cur, prior, viewDiff, MaximumFontSizeKey);
  }

  /** A changed color is written as the color's value. */
  lemma PlaceholderTextColorRule(cur: AndroidTextInputProps, prior: AndroidTextInputProps,
      viewDiff: (AndroidTextInputProps, AndroidTextInputProps) -> Patch)
    ensures ValueAt(DiffAgainst(cur, prior, viewDiff), PlaceholderTextColorKey) ==
      if cur.base.placeholderTextColor != prior.base.placeholderTextColor then Some(ColorValue(cur.base.placeholderTextColor))
      else ValueAt(viewDiff(cur, prior), PlaceholderTextColorKey)
  {
    SingleWriterRule(cur, prior, viewDiff, PlaceholderTextColorKey);
  }

  /** `acceptDragAndDropTypes` is written when it changed, as null when it became absent and as an array of the type names otherwise. */
  lemma AcceptDragAndDropTypesRule(cur: AndroidTextInputProps, prior: AndroidTextInputProps,
      viewDiff: (AndroidTextInputProps, AndroidTextInputProps) -> Patch)
    ensures ValueAt(DiffAgainst(cur, prior, viewDiff), AcceptDragAndDropTypesKey) ==
      if cur.base.acceptDragAndDropTypes != prior.base.acceptDragAndDropTypes then Some(TypesValue(cur.base.acceptDragAndDropTypes))
      else ValueAt(viewDiff(cur, prior), AcceptDragAndDropTypesKey)
  {
    SingleWriterRule(cur, prior, viewDiff, AcceptDragAndDropTypesKey);
  }

  /** `returnKeyLabel` is written when it changed, as the current label. */
  lemma ReturnKeyLabelRule(cur: AndroidTextInputProps, prior: AndroidTextInputProps,
      viewDiff: (AndroidTextInputProps, AndroidTextInputProps) -> Patch)
    ensures ValueAt(DiffAgainst(cur, prior, viewDiff), Own(ReturnKeyLabel)) ==
      if cur.fields.returnKeyLabel != prior.fields.returnKeyLabel then Some(VString(cur.fields.returnKeyLabel))
      else ValueAt(viewDiff(cur, prior), Own(ReturnKeyLabel))
  {
    SingleWriterRule(cur, prior, viewDiff, Own(ReturnKeyLabel));
  }

  // Runs that make no comparison under a key leave it as the earlier runs set it.

  lemma RunsKeep0To0(m: Patch, cur: AndroidTextInputProps, prior: AndroidTextInputProps, k: PatchKey)
    requires forall h :: 0 <= h < 1 ==> RunAvoids(h, k)
    ensures ValueAt(RunsFirst(m, 1, cur, prior), k) == ValueAt(RunsFirst(m, 0, cur, prior), k)
  {
    RunsFirstStepKeeps(m, 0, cur, prior, k);
  }

  lemma RunsKeep0To1(m: Patch, cur: AndroidTextInputProps, prior: AndroidTextInputProps, k: PatchKey)
    requires forall h :: 0 <= h < 2 ==> RunAvoids(h, k)
    ensures ValueAt(RunsFirst(m, 2, cur, prior), k) == ValueAt(RunsFirst(m, 0, cur, prior), k)
  {
    RunsFirstStepKeeps(m, 0, cur, prior, k);
    RunsFirstStepKeeps(m, 1, cur, prior, k);
  }

  lemma RunsKeep0To2(m: Patch, cur: AndroidTextInputProps, prior: AndroidTextInputProps, k: PatchKey)
    requires forall h :: 0 <= h < 3 ==> RunAvoids(h, k)
    ensures ValueAt(RunsFirst(m, 3, cur, prior), k) == ValueAt(RunsFirst(m, 0, cur, prior), k)
  {
    RunsFirstStepKeeps(m, 0, cur, prior, k);
    RunsFirstStepKeeps(m, 1, cur, prior, k);
    RunsFirstStepKeeps(m, 2, cur, prior, k);
  }

  lemma RunsKeep0To3(m: Patch, cur: AndroidTextInputProps, prior: AndroidTextInputProps, k: PatchKey)
    requires forall h :: 0 <= h < 4 ==> RunAvoids(h, k)
    ensures ValueAt(RunsFirst(m, 4, cur, prior), k) == ValueAt(RunsFirst(m, 0, cur, prior), k)
  {
    RunsFirstStepKeeps(m, 0, cur, prior, k);
    RunsFirstStepKeeps(m, 1, cur, prior, k);
    RunsFirstStepKeeps(m, 2, cur, prior, k);
    RunsFirstStepKeeps(m, 3, cur, prior, k);
  }

  lemma RunsKeep0To4(m: Patch, cur: AndroidTextInputProps, prior: AndroidTextInputProps, k: PatchKey)
    requires forall h :: 0 <= h < 5 ==> RunAvoids(h, k)
    ensures ValueAt(RunsFirst(m, 5, cur, prior), k) == ValueAt(RunsFirst(m, 0, cur, prior), k)
  {
    RunsKeep0To3(m, cur, prior, k);
    RunsFirstStepKeeps(m, 4, cur, prior, k);
  }

  lemma RunsKeep0To5(m: Patch, cur: AndroidTextInputProps, prior: AndroidTextInputProps, k: PatchKey)
    requires forall h :: 0 <= h < 6 ==> RunAvoids(h, k)
    ensures ValueAt(RunsFirst(m, 6, cur, prior), k) == ValueAt(RunsFirst(m, 0, cur, prior), k)
  {
    RunsKeep0To3(m, cur, prior, k);
    RunsFirstStepKeeps(m, 4, cur, prior, k);
    RunsFirstStepKeeps(m, 5, cur, prior, k);
  }

  lemma RunsKeep0To6(m: Patch, cur: AndroidTextInputProps, prior: AndroidTextInputProps, k: PatchKey)
    requires forall h :: 0 <= h < 7 ==> RunAvoids(h, k)
    ensures ValueAt(RunsFirst(m, 7, cur, prior), k) == ValueAt(RunsFirst(m, 0, cur, prior), k)
  {
    RunsKeep0To3(m, cur, prior, k);
    RunsFirstStepKeeps(m, 4, cur, prior, k);
    RunsFirstStepKeeps(m, 5, cur, prior, k);
    RunsFirstStepKeeps(m, 6, cur, prior, k);
  }

  lemma RunsKeep0To7(m: Patch, cur: AndroidTextInputProps, prior: AndroidTextInputProps, k: PatchKey)
    requires forall h :: 0 <= h < 8 ==> RunAvoids(h, k)
    ensures ValueAt(RunsFirst(m, 8, cur, prior), k) == ValueAt(RunsFirst(m, 0, cur, prior), k)
  {
    RunsKeep0To3(m, cur, prior, k);
    RunsKeep4To7(m, cur, prior, k);
  }

  lemma RunsKeep0To8(m: Patch, cur: AndroidTextInputProps, prior: AndroidTextInputProps, k: PatchKey)
    requires forall h :: 0 <= h < 9 ==> RunAvoids(h, k)
    ensures ValueAt(RunsFirst(m, 9, cur, prior), k) == ValueAt(RunsFirst(m, 0, cur, prior), k)
  {
    RunsKeep0To3(m, cur, prior, k);
    RunsKeep4To7(m, cur, prior, k);
    RunsFirstStepKeeps(m, 8, cur, prior, k);
  }

  lemma RunsKeep0To9(m: Patch, cur: AndroidTextInputProps, prior: AndroidTextInputProps, k: PatchKey)
    requires forall h :: 0 <= h < 10 ==> RunAvoids(h, k)
    ensures ValueAt(RunsFirst(m, 10, cur, prior), k) == ValueAt(RunsFirst(m, 0, cur, prior), k)
  {
    RunsKeep0To3(m, cur, prior, k);
    RunsKeep4To7(m, cur, prior, k);
    RunsFirstStepKeeps(m, 8, cur, prior, k);
    RunsFirstStepKeeps(m, 9, cur, prior, k);
  }

  lemma RunsKeep0To10(m: Patch, cur: AndroidTextInputProps, prior: AndroidTextInputProps, k: PatchKey)
    requires forall h :: 0 <= h < 11 ==> RunAvoids(h, k)
    ensures ValueAt(RunsFirst(m, 11, cur, prior), k) == ValueAt(RunsFirst(m, 0, cur, prior), k)
  {
    RunsKeep0To3(m, cur, prior, k);
    RunsKeep4To7(m, cur, prior, k);
    RunsFirstStepKeeps(m, 8, cur, prior, k);
    RunsFirstStepKeeps(m, 9, cur, prior, k);
    RunsFirstStepKeeps(m, 10, cur, prior, k);
  }

  lemma RunsKeep0To11(m: Patch, cur: AndroidTextInputProps, prior: AndroidTextInputProps, k: PatchKey)
    requires forall h :: 0 <= h < 12 ==> RunAvoids(h, k)
    ensures ValueAt(RunsFirst(m, 12, cur, prior), k) == ValueAt(RunsFirst(m, 0, cur, prior), k)
  {
    RunsKeep0To3(m, cur, prior, k);
    RunsKeep4To7(m, cur, prior, k);
    RunsKeep8To11(m, cur, prior, k);
  }

  lemma RunsKeep0To12(m: Patch, cur: AndroidTextInputProps, prior: AndroidTextInputProps, k: PatchKey)
    requires forall h :: 0 <= h < 13 ==> RunAvoids(h, k)
    ensures ValueAt(RunsFirst(m, 13, cur, prior), k) == ValueAt(RunsFirst(m, 0, cur, prior), k)
  {
    RunsKeep0To3(m, cur, prior, k);
    RunsKeep4To7(m, cur, prior, k);
    RunsKeep8To11(m, cur, prior, k);
    RunsFirstStepKeeps(m, 12, cur, prior, k);
  }

  lemma RunsKeep0To13(m: Patch, cur: AndroidTextInputProps, prior: AndroidTextInputProps, k: PatchKey)
    requires forall h :: 0 <= h < 14 ==> RunAvoids(h, k)
    ensures ValueAt(RunsFirst(m, 14, cur, prior), k) == ValueAt(RunsFirst(m, 0, cur, prior), k)
  {
    RunsKeep0To3(m, cur, prior, k);
    RunsKeep4To7(m, cur, prior, k);
    RunsKeep8To11(m, cur, prior, k);
    RunsFirstStepKeeps(m, 12, cur, prior, k);
    RunsFirstStepKeeps(m, 13, cur, prior, k);
  }

  lemma RunsKeep0To14(m: Patch, cur: AndroidTextInputProps, prior: AndroidTextInputProps, k: PatchKey)
    requires forall h :: 0 <= h < 15 ==> RunAvoids(h, k)
    ensures ValueAt(RunsFirst(m, 15, cur, prior), k) == ValueAt(RunsFirst(m, 0, cur, prior), k)
  {
    RunsKeep0To3(m, cur, prior, k);
    RunsKeep4To7(m, cur, prior, k);
    RunsKeep8To11(m, cur, prior, k);
    RunsFirstStepKeeps(m, 12, cur, prior, k);
    RunsFirstStepKeeps(m, 13, cur, prior, k);
    RunsFirstStepKeeps(m, 14, cur, prior, k);
  }

  lemma RunsKeep0To15(m: Patch, cur: AndroidTextInputProps, prior: AndroidTextInputProps, k: PatchKey)
    requires forall h :: 0 <= h < 16 ==> RunAvoids(h, k)
    ensures ValueAt(RunsFirst(m, 16, cur, prior), k) == ValueAt(RunsFirst(m, 0, cur, prior), k)
  {
    RunsKeep0To3(m, cur, prior, k);
    RunsKeep4To7(m, cur, prior, k);
    RunsKeep8To11(m, cur, prior, k);
    RunsKeep12To15(m, cur, prior, k);
  }

  lemma RunsKeep1To7(m: Patch, cur: AndroidTextInputProps, prior: AndroidTextInputProps, k: PatchKey)
    requires forall h :: 1 <= h < 8 ==> RunAvoids(h, k)
    ensures ValueAt(RunsFirst(m, 8, cur, prior), k) == ValueAt(RunsFirst(m, 1, cur, prior), k)
  {
    RunsFirstStepKeeps(m, 1, cur, prior, k);
    RunsFirstStepKeeps(m, 2, cur, prior, k);
    RunsFirstStepKeeps(m, 3, cur, prior, k);
    RunsKeep4To7(m, cur, prior, k);
  }

  lemma RunsKeep1To8(m: Patch, cur: AndroidTextInputProps, prior: AndroidTextInputProps, k: PatchKey)
    requires forall h :: 1 <= h < 9 ==> RunAvoids(h, k)
    ensures ValueAt(RunsFirst(m, 9, cur, prior), k) == ValueAt(RunsFirst(m, 1, cur, prior), k)
  {
    RunsFirstStepKeeps(m, 1, cur, prior, k);
    RunsFirstStepKeeps(m, 2, cur, prior, k);
    RunsFirstStepKeeps(m, 3, cur, prior, k);
    RunsKeep4To7(m, cur, prior, k);
    RunsFirstStepKeeps(m, 8, cur, prior, k);
  }

  lemma RunsKeep1To15(m: Patch, cur: AndroidTextInputProps, prior: AndroidTextInputProps, k: PatchKey)
    requires forall h :: 1 <= h < 16 ==> RunAvoids(h, k)
    ensures ValueAt(RunsFirst(m, 16, cur, prior), k) == ValueAt(RunsFirst(m, 1, cur, prior), k)
  {
    RunsFirstStepKeeps(m, 1, cur, prior, k);
    RunsFirstStepKeeps(m, 2, cur, prior, k);
    RunsFirstStepKeeps(m, 3, cur, prior, k);
    RunsKeep4To7(m, cur, prior, k);
    RunsKeep8To11(m, cur, prior, k);
    RunsKeep12To15(m, cur, prior, k);
  }

  lemma RunsKeep2To15(m: Patch, cur: AndroidTextInputProps, prior: AndroidTextInputProps, k: PatchKey)
    requires forall h :: 2 <= h < 16 ==> RunAvoids(h, k)
    ensures ValueAt(RunsFirst(m, 16, cur, prior), k) == ValueAt(RunsFirst(m, 2, cur, prior), k)
  {
    RunsFirstStepKeeps(m, 2, cur, prior, k);
    RunsFirstStepKeeps(m, 3, cur, prior, k);
    RunsKeep4To7(m, cur, prior, k);
    RunsKeep8To11(m, cur, prior, k);
    RunsKeep12To15(m, cur, prior, k);
  }

  lemma RunsKeep3To14(m: Patch, cur: AndroidTextInputProps, prior: AndroidTextInputProps, k: PatchKey)
    requires forall h :: 3 <= h < 15 ==> RunAvoids(h, k)
    ensures ValueAt(RunsFirst(m, 15, cur, prior), k) == ValueAt(RunsFirst(m, 3, cur, prior), k)
  {
    RunsFirstStepKeeps(m, 3, cur, prior, k);
    RunsKeep4To7(m, cur, prior, k);
    RunsKeep8To11(m, cur, prior, k);
    RunsFirstStepKeeps(m, 12, cur, prior, k);
    RunsFirstStepKeeps(m, 13, cur, prior, k);
    RunsFirstStepKeeps(m, 14, cur, prior, k);
  }

  lemma RunsKeep3To15(m: Patch, cur: AndroidTextInputProps, prior: AndroidTextInputProps, k: PatchKey)
    requires forall h :: 3 <= h < 16 ==> RunAvoids(h, k)
    ensures ValueAt(RunsFirst(m, 16, cur, prior), k) == ValueAt(RunsFirst(m, 3, cur, prior), k)
  {
    RunsFirstStepKeeps(m, 3, cur, prior, k);
    RunsKeep4To7(m, cur, prior, k);
    RunsKeep8To11(m, cur, prior, k);
    RunsKeep12To15(m, cur, prior, k);
  }

  lemma RunsKeep4To15(m: Patch, cur: AndroidTextInputProps, prior: AndroidTextInputProps, k: PatchKey)
    requires forall h :: 4 <= h < 16 ==> RunAvoids(h, k)
    ensures ValueAt(RunsFirst(m, 16, cur, prior), k) == ValueAt(RunsFirst(m, 4, cur, prior), k)
  {
    RunsKeep4To7(m, cur, prior, k);
    RunsKeep8To11(m, cur, prior, k);
    RunsKeep12To15(m, cur, prior, k);
  }

  lemma RunsKeep5To15(m: Patch, cur: AndroidTextInputProps, prior: AndroidTextInputProps, k: PatchKey)
    requires forall h :: 5 <= h < 16 ==> RunAvoids(h, k)
    ensures ValueAt(RunsFirst(m, 16, cur, prior), k) == ValueAt(RunsFirst(m, 5, cur, prior), k)
  {
    RunsFirstStepKeeps(m, 5, cur, prior, k);
    RunsFirstStepKeeps(m, 6, cur, prior, k);
    RunsFirstStepKeeps(m, 7, cur, prior, k);
    RunsKeep8To11(m, cur, prior, k);
    RunsKeep12To15(m, cur, prior, k);
  }

  lemma RunsKeep6To15(m: Patch, cur: AndroidTextInputProps, prior: AndroidTextInputProps, k: PatchKey)
    requires forall h :: 6 <= h < 16 ==> RunAvoids(h, k)
    ensures ValueAt(RunsFirst(m, 16, cur, prior), k) == ValueAt(RunsFirst(m, 6, cur, prior), k)
  {
    RunsFirstStepKeeps(m, 6, cur, prior, k);
    RunsFirstStepKeeps(m, 7, cur, prior, k);
    RunsKeep8To11(m, cur, prior, k);
    RunsKeep12To15(m, cur, prior, k);
  }

  lemma RunsKeep7To15(m: Patch, cur: AndroidTextInputProps, prior: AndroidTextInputProps, k: PatchKey)
    requires forall h :: 7 <= h < 16 ==> RunAvoids(h, k)
    ensures ValueAt(RunsFirst(m, 16, cur, prior), k) == ValueAt(RunsFirst(m, 7, cur, prior), k)
  {
    RunsFirstStepKeeps(m, 7, cur, prior, k);
    RunsKeep8To11(m, cur, prior, k);
    RunsKeep12To15(m, cur, prior, k);
  }

  lemma RunsKeep8To15(m: Patch, cur: AndroidTextInputProps, prior: AndroidTextInputProps, k: PatchKey)
    requires forall h :: 8 <= h < 16 ==> RunAvoids(h, k)
    ensures ValueAt(RunsFirst(m, 16, cur, prior), k) == ValueAt(RunsFirst(m, 8, cur, prior), k)
  {
    RunsKeep8To11(m, cur, prior, k);
    RunsKeep12To15(m, cur, prior, k);
  }

  lemma RunsKeep9To15(m: Patch, cur: AndroidTextInputProps, prior: AndroidTextInputProps, k: PatchKey)
    requires forall h :: 9 <= h < 16 ==> RunAvoids(h, k)
    ensures ValueAt(RunsFirst(m, 16, cur, prior), k) == ValueAt(RunsFirst(m, 9, cur, prior), k)
  {
    RunsFirstStepKeeps(m, 9, cur, prior, k);
    RunsFirstStepKeeps(m, 10, cur, prior, k);
    RunsFirstStepKeeps(m, 11, cur, prior, k);
    RunsKeep12To15(m, cur, prior, k);
  }

  lemma RunsKeep10To15(m: Patch, cur: AndroidTextInputProps, prior: AndroidTextInputProps, k: PatchKey)
    requires forall h :: 10 <= h < 16 ==> RunAvoids(h, k)
    ensures ValueAt(RunsFirst(m, 16, cur, prior), k) == ValueAt(RunsFirst(m, 10, cur, prior), k)
  {
    RunsFirstStepKeeps(m, 10, cur, prior, k);
    RunsFirstStepKeeps(m, 11, cur, prior, k);
    RunsKeep12To15(m, cur, prior, k);
  }

  lemma RunsKeep11To15(m: Patch, cur: AndroidTextInputProps, prior: AndroidTextInputProps, k: PatchKey)
    requires forall h :: 11 <= h < 16 ==> RunAvoids(h, k)
    ensures ValueAt(RunsFirst(m, 16, cur, prior), k) == ValueAt(RunsFirst(m, 11, cur, prior), k)
  {
    RunsFirstStepKeeps(m, 11, cur, prior, k);
    RunsKeep12To15(m, cur, prior, k);
  }

  lemma RunsKeep12To15(m: Patch, cur: AndroidTextInputProps, prior: AndroidTextInputProps, k: PatchKey)
    requires forall h :: 12 <= h < 16 ==> RunAvoids(h, k)
    ensures ValueAt(RunsFirst(m, 16, cur, prior), k) == ValueAt(RunsFirst(m, 12, cur, prior), k)
  {
    RunsFirstStepKeeps(m, 12, cur, prior, k);
    RunsFirstStepKeeps(m, 13, cur, prior, k);
    RunsFirstStepKeeps(m, 14, cur, prior, k);
    RunsFirstStepKeeps(m, 15, cur, prior, k);
  }

  lemma RunsKeep13To15(m: Patch, cur: AndroidTextInputProps, prior: AndroidTextInputProps, k: PatchKey)
    requires forall h :: 13 <= h < 16 ==> RunAvoids(h, k)
    ensures ValueAt(RunsFirst(m, 16, cur, prior), k) == ValueAt(RunsFirst(m, 13, cur, prior), k)
  {
    RunsFirstStepKeeps(m, 13, cur, prior, k);
    RunsFirstStepKeeps(m, 14, cur, prior, k);
    RunsFirstStepKeeps(m, 15, cur, prior, k);
  }

  lemma RunsKeep14To15(m: Patch, cur: AndroidTextInputProps, prior: AndroidTextInputProps, k: PatchKey)
    requires forall h :: 14 <= h < 16 ==> RunAvoids(h, k)
    ensures ValueAt(RunsFirst(m, 16, cur, prior), k) == ValueAt(RunsFirst(m, 14, cur, prior), k)
  {
    RunsFirstStepKeeps(m, 14, cur, prior, k);
    RunsFirstStepKeeps(m, 15, cur, prior, k);
  }

  lemma RunsKeep15To15(m: Patch, cur: AndroidTextInputProps, prior: AndroidTextInputProps, k: PatchKey)
    requires forall h :: 15 <= h < 16 ==> RunAvoids(h, k)
    ensures ValueAt(RunsFirst(m, 16, cur, prior), k) == ValueAt(RunsFirst(m, 15, cur, prior), k)
  {
    RunsFirstStepKeeps(m, 15, cur, prior, k);
  }

  lemma RunsKeep4To7(m: Patch, cur: AndroidTextInputProps, prior: AndroidTextInputProps, k: PatchKey)
    requires forall h :: 4 <= h < 8 ==> RunAvoids(h, k)
    ensures ValueAt(RunsFirst(m, 8, cur, prior), k) == ValueAt(RunsFirst(m, 4, cur, prior), k)
  {
    RunsFirstStepKeeps(m, 4, cur, prior, k);
    RunsFirstStepKeeps(m, 5, cur, prior, k);
    RunsFirstStepKeeps(m, 6, cur, prior, k);
    RunsFirstStepKeeps(m, 7, cur, prior, k);
  }

  lemma RunsKeep8To11(m: Patch, cur: AndroidTextInputProps, prior: AndroidTextInputProps, k: PatchKey)
    requires forall h :: 8 <= h < 12 ==> RunAvoids(h, k)
    ensures ValueAt(RunsFirst(m, 12, cur, prior), k) == ValueAt(RunsFirst(m, 8, cur, prior), k)
  {
    RunsFirstStepKeeps(m, 8, cur, prior, k);
    RunsFirstStepKeeps(m, 9, cur, prior, k);
    RunsFirstStepKeeps(m, 10, cur, prior, k);
    RunsFirstStepKeeps(m, 11, cur, prior, k);
  }

  // The keys this layer never compares.

  /** A key that is not parsed is none of the parsed ones. */
  lemma UnparsedIsNoParsedKey(k: PropKey)
    requires !k.IsParsed()
    ensures k != NumberOfLines
      && k != TextBreakStrategy
      && k != IncludeFontPadding
      && k != AutoComplete
      && k != ReturnKeyLabel
      && k != DisableFullscreenUI
      && k != InlineImageLeft
      && k != InlineImagePadding
      && k != ImportantForAutofill
      && k != ShowSoftInputOnFocus
      && k != AutoCorrect
      && k != AllowFontScaling
      && k != MaxFontSizeMultiplier
      && k != KeyboardType
      && k != ReturnKeyType
      && k != SecureTextEntry
      && k != Value
      && k != SelectTextOnFocus
      && k != CaretHidden
      && k != ContextMenuHidden
      && k != TextShadowColor
      && k != TextShadowRadius
      && k != TextDecorationLine
      && k != FontStyle
      && k != TextShadowOffset
      && k != LineHeight
      && k != TextTransform
      && k != LetterSpacing
      && k != FontSize
      && k != TextAlign
      && k != FontWeight
      && k != FontFamily
  {
  }

  lemma OwnKeysAvoided(k: PropKey)
    requires k != NumberOfLines
      && k != TextBreakStrategy
      && k != IncludeFontPadding
      && k != AutoComplete
      && k != ReturnKeyLabel
      && k != DisableFullscreenUI
      && k != InlineImageLeft
      && k != InlineImagePadding
      && k != ImportantForAutofill
      && k != ShowSoftInputOnFocus
      && k != AutoCorrect
      && k != AllowFontScaling
      && k != MaxFontSizeMultiplier
      && k != KeyboardType
      && k != ReturnKeyType
      && k != SecureTextEntry
      && k != Value
      && k != SelectTextOnFocus
      && k != CaretHidden
      && k != ContextMenuHidden
      && k != TextShadowColor
      && k != TextShadowRadius
      && k != TextDecorationLine
      && k != FontStyle
      && k != TextShadowOffset
      && k != LineHeight
      && k != TextTransform
      && k != LetterSpacing
      && k != FontSize
      && k != TextAlign
      && k != FontWeight
      && k != FontFamily
    ensures forall h :: 0 <= h < RunCount ==> RunAvoids(h, Own(k))
  {
  }

  lemma UnparsedKeysAvoided(k: PropKey)
    requires !k.IsParsed()
    ensures forall h :: 0 <= h < RunCount ==> RunAvoids(h, Own(k))
  {
    UnparsedIsNoParsedKey(k);
    OwnKeysAvoided(k);
  }

  /** The color, the padding keys and every name this layer does not declare are never compared: the patch holds what the view layer's patch holds. */
  lemma UnparsedKeysNotDiffed(cur: AndroidTextInputProps, prior: AndroidTextInputProps,
      viewDiff: (AndroidTextInputProps, AndroidTextInputProps) -> Patch, k: PropKey)
    requires !k.IsParsed()
    ensures ValueAt(DiffAgainst(cur, prior, viewDiff), Own(k)) == ValueAt(viewDiff(cur, prior), Own(k))
  {
    UnparsedKeysAvoided(k);
    DiffIsRunsFirst(cur, prior, viewDiff);
    RunsKeep0To15(viewDiff(cur, prior), cur, prior, Own(k));
  }

  lemma ViewKeysAvoided(name: string)
    ensures forall h :: 0 <= h < RunCount ==> RunAvoids(h, View(name))
  {
  }

  /** The keys of the view layer are not compared here: the patch holds what the view layer's patch holds under them. */
  lemma ViewKeysNotDiffed(cur: AndroidTextInputProps, prior: AndroidTextInputProps,
      viewDiff: (AndroidTextInputProps, AndroidTextInputProps) -> Patch, name: string)
    ensures ValueAt(DiffAgainst(cur, prior, viewDiff), View(name)) == ValueAt(viewDiff(cur, prior), View(name))
  {
    ViewKeysAvoided(name);
    DiffIsRunsFirst(cur, prior, viewDiff);
    RunsKeep0To15(viewDiff(cur, prior), cur, prior, View(name));
  }
}
