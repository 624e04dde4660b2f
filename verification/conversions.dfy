/**
 * The typed values the text input props hold, and stand-ins for the foreign
 * parsing primitives that turn an untyped JavaScript value into each of them.
 * A parser answers `None` for a value of the wrong shape; the conversion rule
 * in RawProps then falls back to the field's static default.
 */
module Conversions {
  import opened Wrappers
  import opened RawProps

  /** An optional color: `None` is "undefined", which means the platform default. */
  type SharedColor = Option<int>

  datatype Size = Size(width: real, height: real)

  datatype EllipsizeMode = Clip | Head | Tail | Middle
  datatype TextBreakStrategy = Simple | HighQuality | Balanced
  datatype HyphenationFrequency = HyphenationNone | HyphenationNormal | HyphenationFull
  datatype TextAlignVertical = AlignAuto | AlignTop | AlignBottom | AlignCenter
  datatype SubmitBehavior = SubmitDefault | Submit | BlurAndSubmit | Newline

  /**
   * A stand-in for the integer conversion of a JavaScript number: the
   * fraction is dropped, toward zero.
   */
  function TruncateToInt(x: real): (r: int)
    ensures x >= 0.0 ==> 0.0 <= r as real <= x < r as real + 1.0
    ensures x < 0.0 ==> r as real - 1.0 < x <= r as real <= 0.0
  {
    if x >= 0.0 then x.Floor else -((-x).Floor)
  }

  function ParseBool(d: Dyn): Option<bool> {
    if d.DBool? then Some(d.b) else None
  }

  function ParseInt(d: Dyn): Option<int> {
    if d.DNumber? then Some(TruncateToInt(d.x)) else None
  }

  function ParseFloat(d: Dyn): Option<real> {
    if d.DNumber? then Some(d.x) else None
  }

  function ParseString(d: Dyn): Option<string> {
    if d.DString? then Some(d.s) else None
  }

  function ParseColor(d: Dyn): Option<SharedColor> {
    if d.DNumber? then Some(Some(TruncateToInt(d.x))) else None
  }

  function ParseSize(d: Dyn): Option<Size> {
    if d.DObject? && "width" in d.members && "height" in d.members
       && d.members["width"].DNumber? && d.members["height"].DNumber?
    then Some(Size(d.members["width"].x, d.members["height"].x))
    else None
  }

  function EllipsizeModeName(m: EllipsizeMode): string {
    match m
    case Clip => "clip"
    case Head => "head"
    case Tail => "tail"
    case Middle => "middle"
  }

  function TextBreakStrategyName(s: TextBreakStrategy): string {
    match s
    case Simple => "simple"
    case HighQuality => "highQuality"
    case Balanced => "balanced"
  }

  function HyphenationFrequencyName(h: HyphenationFrequency): string {
    match h
    case HyphenationNone => "none"
    case HyphenationNormal => "normal"
    case HyphenationFull => "full"
  }

  function TextAlignVerticalName(a: TextAlignVertical): string {
    match a
    case AlignAuto => "auto"
    case AlignTop => "top"
    case AlignBottom => "bottom"
    case AlignCenter => "center"
  }

  function SubmitBehaviorName(b: SubmitBehavior): string {
    match b
    case SubmitDefault => "default"
    case Submit => "submit"
    case BlurAndSubmit => "blurAndSubmit"
    case Newline => "newline"
  }

  /**
   * The enum encodings are injective, so comparing two enum values and
   * comparing their encodings agree.
   */
  lemma EnumNamesInjective(m1: EllipsizeMode, m2: EllipsizeMode, s1: TextBreakStrategy, s2: TextBreakStrategy,
                           h1: HyphenationFrequency, h2: HyphenationFrequency,
                           a1: TextAlignVertical, a2: TextAlignVertical, b1: SubmitBehavior, b2: SubmitBehavior)
    ensures EllipsizeModeName(m1) == EllipsizeModeName(m2) <==> m1 == m2
    ensures TextBreakStrategyName(s1) == TextBreakStrategyName(s2) <==> s1 == s2
    ensures HyphenationFrequencyName(h1) == HyphenationFrequencyName(h2) <==> h1 == h2
    ensures TextAlignVerticalName(a1) == TextAlignVerticalName(a2) <==> a1 == a2
    ensures SubmitBehaviorName(b1) == SubmitBehaviorName(b2) <==> b1 == b2
  {
  }
}
