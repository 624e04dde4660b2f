# Android text input props

A model of the Android text input property record of React Native's Fabric renderer and its four pieces of logic:

- **`hasValue`**: the presence check for a key of the raw property bag.
- **The constructor**: builds a record from the previous record and a raw bag. It has two modes, chosen by the iterator-setter feature flag:
  - flag on: copy the previous record; the setter then fills it in;
  - flag off: convert every field from the bag.
- **`setProp`**: the in-place update of one named field, after the base layer's setter.
- **`getDiffProps`**: the sparse patch of the fields that changed since the previous record, added on top of the view layer's patch.

Modules:

- `RawProps`:
  - property keys, as distinct tags;
  - the raw bag;
  - the three-way conversion rule: absent keeps the old value, null resets to the static default, a payload is parsed;
  - `hasValue`.
- `Conversions`:
  - colors and sizes;
  - the enums of the paragraph attributes and their names;
  - stand-ins for the parsers.
- `TextInputProps`: the record (base text input layer plus this layer's own fields), the defaults, and the constructor in both modes, as written and corrected.
- `PropUpdater`:
  - `setProp` as a method of a class that holds the record while it is being built;
  - the proof that the flag-on mode (copy, then one setter call per bag entry) matches the flag-off conversion.
- `Patches`: the patch (a map from keys to dynamic values), the conditional insertion, and the key rule of a run of insertions.
- `DiffProps`:
  - the comparisons of `getDiffProps` as a table in source order;
  - `GetDiffProps` as a method that updates its `result` map step by step, proved equal to that table replayed onto the view layer's patch.
- `DiffLaws`: what the patch holds, key by key.

The view layer's `ViewProps::getDiffProps` is a parameter `viewDiff` of the diff. The base layer's constructor (`baseCtor`) and setter (`baseSetProp`) are parameters too; the base layer is not modelled.

## Model

| member | source | states |
|---|---|---|
| RawProps.HasValueCases | packages/react-native/ReactCommon/react/renderer/components/textinput/platform/android/react/renderer/components/androidtextinput/AndroidTextInputProps.cpp:18-35 | An absent key gives exactly the default passed in. A present key gives true iff it carries a payload, whatever the default. |
| RawProps.HasValueIsThreeWayRule | packages/react-native/ReactCommon/react/renderer/components/textinput/platform/android/react/renderer/components/androidtextinput/AndroidTextInputProps.cpp:18-35 | `hasValue` is the constructor's three-way conversion rule with static default false, where every payload parses as true. |
| RawProps.HasValueUpdate | packages/react-native/ReactCommon/react/renderer/components/textinput/platform/android/react/renderer/components/androidtextinput/AndroidTextInputProps.cpp:18-35 | Adding one key to the bag changes `hasValue` of that key only: it becomes whether the new value has a payload. |
| RawProps.ConvertRawPropThreeWay | packages/react-native/ReactCommon/react/renderer/components/textinput/platform/android/react/renderer/components/androidtextinput/AndroidTextInputProps.cpp:42-159 | Three cases of the per-field conversion. An absent key keeps the source value. Null gives the static default. A payload gives its parse, or the static default when it does not parse. |
| RawProps.ConvertRawPropUpdate | packages/react-native/ReactCommon/react/renderer/components/textinput/platform/android/react/renderer/components/androidtextinput/AndroidTextInputProps.cpp:42-159 | Adding one key to the bag changes the conversion of that key only, to the setter-side conversion of the value sent. |
| TextInputProps.ConstructAsWritten | packages/react-native/ReactCommon/react/renderer/components/textinput/platform/android/react/renderer/components/androidtextinput/AndroidTextInputProps.cpp:37-191 | The base part is the base constructor's result and color is 0 in both modes. Flag on: the source record with `returnKeyLabel` replaced by the source's `autoComplete` and color 0. Flag off: every field converted from the bag against the source record. |
| TextInputProps.Construct | packages/react-native/ReactCommon/react/renderer/components/textinput/platform/android/react/renderer/components/androidtextinput/AndroidTextInputProps.cpp:37-191 | As ConstructAsWritten, except that flag on gives the source's fields verbatim, apart from color 0. |
| TextInputProps.CopyFieldsAsWritten | packages/react-native/ReactCommon/react/renderer/components/textinput/platform/android/react/renderer/components/androidtextinput/AndroidTextInputProps.cpp:42-190 | The flag-on copy equals the source except that `returnKeyLabel` takes `autoComplete` and color is 0. |
| TextInputProps.PaddingFlagsFromOwnKey | packages/react-native/ReactCommon/react/renderer/components/textinput/platform/android/react/renderer/components/androidtextinput/AndroidTextInputProps.cpp:162-190 | Flag off: each of the nine padding-presence flags is `hasValue` of its own key with its own previous value as the default. |
| PropUpdater.PropsUnderConstruction.SetProp | packages/react-native/ReactCommon/react/renderer/components/textinput/platform/android/react/renderer/components/androidtextinput/AndroidTextInputProps.cpp:193-285 | The base part becomes the base setter's result on the old base part. This layer's fields become the single-key update `SetField` of the old fields. |
| PropUpdater.SetFieldIgnoresUndeclared | packages/react-native/ReactCommon/react/renderer/components/textinput/platform/android/react/renderer/components/androidtextinput/AndroidTextInputProps.cpp:201-285 | `color` (its case is commented out at line 231) and every key this layer does not declare leave all of this layer's fields unchanged. |
| PropUpdater.SetFieldAutoComplete | packages/react-native/ReactCommon/react/renderer/components/textinput/platform/android/react/renderer/components/androidtextinput/AndroidTextInputProps.cpp:206 | `autoComplete` takes the conversion of the value sent, with "" on null. Every other field of this layer is unchanged. The other 31 `SetField<Key>` lemmas say the same for their own keys (lines 206-242); the value on null is that of the default-constructed record of line 203. |
| PropUpdater.SetFieldPadding | packages/react-native/ReactCommon/react/renderer/components/textinput/platform/android/react/renderer/components/androidtextinput/AndroidTextInputProps.cpp:248-251 | `padding` sets only `hasPadding`, to whether the value has a payload. The other eight flags and all other fields are unchanged. `SetFieldPaddingHorizontal` … `SetFieldPaddingEnd` do the same for lines 252-283. |
| PropUpdater.SetFieldParsedKeepsPadding | packages/react-native/ReactCommon/react/renderer/components/textinput/platform/android/react/renderer/components/androidtextinput/AndroidTextInputProps.cpp:205-242 | A parsed key leaves all nine padding-presence flags alone. |
| PropUpdater.SetAfterConvert | packages/react-native/ReactCommon/react/renderer/components/textinput/platform/android/react/renderer/components/androidtextinput/AndroidTextInputProps.cpp:37-285 | One setter call after a flag-off conversion equals the flag-off conversion of the bag with that entry added. |
| PropUpdater.StreamingMatchesBulk | packages/react-native/ReactCommon/react/renderer/components/textinput/platform/android/react/renderer/components/androidtextinput/AndroidTextInputProps.cpp:37-285 | Feeding a sequence of entries to the setter after a conversion equals converting the bag with those entries added. A later entry wins. |
| PropUpdater.ConvertEmptyIsCopy | packages/react-native/ReactCommon/react/renderer/components/textinput/platform/android/react/renderer/components/androidtextinput/AndroidTextInputProps.cpp:42-190 | Converting against an empty bag is the corrected flag-on copy. |
| PropUpdater.ModesAgree | packages/react-native/ReactCommon/react/renderer/components/textinput/platform/android/react/renderer/components/androidtextinput/AndroidTextInputProps.cpp:37-285 | With the corrected constructor, flag on (copy, then one setter call per entry) gives the same fields as flag off (convert the whole bag). |
| PropUpdater.AsWrittenModesDisagree | packages/react-native/ReactCommon/react/renderer/components/textinput/platform/android/react/renderer/components/androidtextinput/AndroidTextInputProps.cpp:48-51 | With the constructor as written, a record with `autoComplete` "email" and `returnKeyLabel` "go", rebuilt from an empty bag, keeps "go" with the flag off but gets "email" with the flag on. |
| Patches.ReplayValueAt | packages/react-native/ReactCommon/react/renderer/components/textinput/platform/android/react/renderer/components/androidtextinput/AndroidTextInputProps.cpp:372-631 | After a run of conditional insertions, a key holds the value of the last insertion under it whose comparison found a change. A key with no such insertion holds what the starting patch held, including its absence. |
| Patches.LastWriteIsLastWriter | packages/react-native/ReactCommon/react/renderer/components/textinput/platform/android/react/renderer/components/androidtextinput/AndroidTextInputProps.cpp:372-631 | The last write under a key is `v` iff some comparison writes `v` under it and no later comparison writes under it. |
| Patches.LastWriteNone | packages/react-native/ReactCommon/react/renderer/components/textinput/platform/android/react/renderer/components/androidtextinput/AndroidTextInputProps.cpp:372-631 | There is no last write under a key iff no comparison writes under it. |
| Patches.ReplayAppend | packages/react-native/ReactCommon/react/renderer/components/textinput/platform/android/react/renderer/components/androidtextinput/AndroidTextInputProps.cpp:372-631 | Replaying two runs one after the other equals replaying their concatenation. |
| Patches.ReplayFirstUnchanged | packages/react-native/ReactCommon/react/renderer/components/textinput/platform/android/react/renderer/components/androidtextinput/AndroidTextInputProps.cpp:372-631 | A run in which no comparison found a change leaves the patch as it was. |
| DiffProps.GetDiffProps | packages/react-native/ReactCommon/react/renderer/components/textinput/platform/android/react/renderer/components/androidtextinput/AndroidTextInputProps.cpp:364-634 | The result is the table of comparisons replayed onto the view layer's patch, against the previous record or, when there is none, against the default-constructed record (lines 366-370). |
| DiffProps.CompareLineBreaking | packages/react-native/ReactCommon/react/renderer/components/textinput/platform/android/react/renderer/components/androidtextinput/AndroidTextInputProps.cpp:375-389 | These step-by-step map updates equal the replay of their comparisons. So do the other fifteen `Compare…` methods, each for its own lines of 391-631. |
| DiffProps.CompareColors | packages/react-native/ReactCommon/react/renderer/components/textinput/platform/android/react/renderer/components/androidtextinput/AndroidTextInputProps.cpp:438-456 | As CompareLineBreaking, for the five colors. It requires every color that changed to be present, because the source dereferences it unchecked. |
| DiffProps.DiffInGroups | packages/react-native/ReactCommon/react/renderer/components/textinput/platform/android/react/renderer/components/androidtextinput/AndroidTextInputProps.cpp:372-631 | Replaying the whole table equals replaying its sixteen runs one after another. |
| DiffLaws.DiffHoldsLastWrite | packages/react-native/ReactCommon/react/renderer/components/textinput/platform/android/react/renderer/components/androidtextinput/AndroidTextInputProps.cpp:372-631 | A key written by a comparison that found a change, and by no later one, holds that comparison's current value. |
| DiffLaws.DiffKeepsUnwritten | packages/react-native/ReactCommon/react/renderer/components/textinput/platform/android/react/renderer/components/androidtextinput/AndroidTextInputProps.cpp:372-631 | A key that no comparison writes holds what the view layer's patch holds. |
| DiffLaws.DiffWritesOnlyChanges | packages/react-native/ReactCommon/react/renderer/components/textinput/platform/android/react/renderer/components/androidtextinput/AndroidTextInputProps.cpp:372-631 | Every key the patch holds beyond the view layer's was written by a comparison that found a change. |
| DiffLaws.SelfDiffIsViewDiff | packages/react-native/ReactCommon/react/renderer/components/textinput/platform/android/react/renderer/components/androidtextinput/AndroidTextInputProps.cpp:372-631 | A record diffed against itself gives exactly the view layer's patch. |
| DiffLaws.SingleWriterRule | packages/react-native/ReactCommon/react/renderer/components/textinput/platform/android/react/renderer/components/androidtextinput/AndroidTextInputProps.cpp:372-631 | Covers each of the 53 keys that exactly one comparison writes (`WrittenOnce`). The patch holds the current field's value, encoded as the source encodes it (`FieldValue`), iff the field changed under the source's test for it (`FieldChanged`). Otherwise the key holds the view layer's value. |
| DiffLaws.NumberOfLinesRule | packages/react-native/ReactCommon/react/renderer/components/textinput/platform/android/react/renderer/components/androidtextinput/AndroidTextInputProps.cpp:375-378 | Two comparisons write `numberOfLines` (lines 375-378 and 513). This layer's value wins if it changed. Otherwise the paragraph's `maximumNumberOfLines` is written if it changed. Otherwise the key holds the view layer's value. |
| DiffLaws.TextBreakStrategyRule | packages/react-native/ReactCommon/react/renderer/components/textinput/platform/android/react/renderer/components/androidtextinput/AndroidTextInputProps.cpp:385-389 | Two comparisons write `textBreakStrategy` (lines 385-389 and 521). This layer's string wins if it changed. Otherwise the paragraph's strategy is written by name if it changed. Otherwise the key holds the view layer's value. |
| DiffLaws.IncludeFontPaddingRule | packages/react-native/ReactCommon/react/renderer/components/textinput/platform/android/react/renderer/components/androidtextinput/AndroidTextInputProps.cpp:408-411 | Two comparisons write `includeFontPadding` (lines 408-411 and 621). This layer's flag wins if it changed. Otherwise the paragraph's flag is written if it changed. Otherwise the key holds the view layer's value. |
| DiffLaws.TextAlignVerticalRule | packages/react-native/ReactCommon/react/renderer/components/textinput/platform/android/react/renderer/components/androidtextinput/AndroidTextInputProps.cpp:419-427 | `textAlignVertical` is written iff it changed: null when it became absent, its name otherwise. Unchanged, it holds the view layer's value. |
| DiffLaws.MinimumFontSizeRule | packages/react-native/ReactCommon/react/renderer/components/textinput/platform/android/react/renderer/components/androidtextinput/AndroidTextInputProps.cpp:396-400 | `minimumFontSize` is written, as the current size, iff `floatEquality` fails. |
| DiffLaws.MaximumFontSizeRule | packages/react-native/ReactCommon/react/renderer/components/textinput/platform/android/react/renderer/components/androidtextinput/AndroidTextInputProps.cpp:402-406 | `maximumFontSize` is written, as the current size, iff `floatEquality` fails. |
| DiffLaws.PlaceholderTextColorRule | packages/react-native/ReactCommon/react/renderer/components/textinput/platform/android/react/renderer/components/androidtextinput/AndroidTextInputProps.cpp:438-440 | `placeholderTextColor` is written, as the current color, iff it changed. |
| DiffLaws.AcceptDragAndDropTypesRule | packages/react-native/ReactCommon/react/renderer/components/textinput/platform/android/react/renderer/components/androidtextinput/AndroidTextInputProps.cpp:498-502 | `acceptDragAndDropTypes` is written iff it changed: null when it became absent, otherwise an array of the names. |
| DiffLaws.ReturnKeyLabelRule | packages/react-native/ReactCommon/react/renderer/components/textinput/platform/android/react/renderer/components/androidtextinput/AndroidTextInputProps.cpp:509-511 | `returnKeyLabel` is written, as the current label, iff it changed. |
| DiffLaws.UnparsedKeysNotDiffed | packages/react-native/ReactCommon/react/renderer/components/textinput/platform/android/react/renderer/components/androidtextinput/AndroidTextInputProps.cpp:372-631 | The keys `color` and padding, and every name this layer does not declare, are never compared here. The patch holds the view layer's value for them. |
| DiffLaws.ViewKeysNotDiffed | packages/react-native/ReactCommon/react/renderer/components/textinput/platform/android/react/renderer/components/androidtextinput/AndroidTextInputProps.cpp:372 | This layer compares under none of the view layer's keys. The patch holds the view layer's value for each of them. |
| Conversions.EnumNamesInjective | packages/react-native/ReactCommon/react/renderer/components/textinput/platform/android/react/renderer/components/androidtextinput/AndroidTextInputProps.cpp:380-427 | Distinct enum values are written under distinct names, so a changed enum field is written as a different string. |

## Left out

- The base text input layer is left out. Its constructor, its setter and `ViewProps::getDiffProps` are function parameters. The model reads only the base fields the diff compares.
- The parsers behind `convertRawProp`, `fromRawValue` and `RAW_SET_PROP_SWITCH_CASE_BASIC` are stand-ins that accept the payload of the expected kind. A payload that does not parse gives the field's static default.
- Property-name hashing: the keys are distinct tags, so hash collisions are not modelled.
- Patch keys are tags too. A clash between a name this layer writes and a name the view layer's patch already uses is resolved by overwriting, as in the source, but only for the tags this model names.
- The feature flag `enableCppPropsIteratorSetter` is a boolean parameter.
- `BaseDefaults`, the base part of the default-constructed record that `getDiffProps` diffs against when there is no previous record (lines 366-370), is a chosen stand-in: zero values, empty strings, absent colors, `ellipsizeMode` Tail, `includeFontPadding` false and font sizes 0.0. The base layer's in-class initialisers are not part of this model, so which base keys are written against that record need not match the source.
- The header with the fields' in-class initialisers is not part of this model. The default-constructed record therefore holds the static defaults the constructor passes (zero values, empty strings, absent colors) and color 0.
- `FloatEpsilon`: the tolerance of `floatEquality` is taken as 0.005, because FloatComparison.h is not part of this model. Floating point is modelled as exact reals, so there is no NaN and no rounding.
- DiffProps.GetDiffProps requires, through `ColorDerefsSafe`, that every color which changed is present in the current props. The source dereferences those optional colors at lines 438-456 and 581-583 without checking them. Diffs in which a color became unset are therefore outside the method's contract, and what the dereference yields for them is not modelled.
- The numbers written are unbounded `int` and `real` values. The 32-bit color value and the `folly::dynamic` encodings are opaque: `toString`, `toDynamic` and the enum-name conversions are modelled only as injective name functions.
- `getDynamic` (lines 288-349), `getDebugProps` and `getDiffPropsImplementationTarget` are left out as serialisation and trivia.
- The sixteen runs into which the comparisons are grouped (`Compare…`, `RunByRun`) follow the source's order exactly. The grouping has no counterpart in the source: it keeps each proof small.

## Findings

| source | as written | input that shows it | evidently intended | confidence | as-written member | corrected member |
|---|---|---|---|---|---|---|
| packages/react-native/ReactCommon/react/renderer/components/textinput/platform/android/react/renderer/components/androidtextinput/AndroidTextInputProps.cpp:48 | With the iterator-setter flag on, `returnKeyLabel` is initialised from `sourceProps.autoComplete` | A previous record with `autoComplete` "email" and `returnKeyLabel` "go", rebuilt from an empty bag: flag off keeps "go", flag on gives "email" | `sourceProps.returnKeyLabel`, as in every other flag-on copy; then the two modes agree | not executed | PropUpdater.AsWrittenModesDisagree | PropUpdater.ModesAgree |
