/**
 * The sparse patch `getDiffProps` returns, and the rule by which a run of
 * conditional insertions builds it. The patch is a dynamic object; its keys
 * are modelled as distinct tags (each with the name it is written under)
 * and its values as the dynamic values the fields encode to.
 */
module Patches {
  import opened Wrappers
  import opened RawProps

  /** A dynamic value as the patch holds it. */
  datatype Val =
    | VNull
    | VBool(b: bool)
    | VInt(i: int)
    | VReal(x: real)
    | VString(s: string)
    | VArray(items: seq<Val>)
    | VObject(members: map<string, Val>)

  /**
   * The names the patch is written under: this layer's own names (three of
   * which the paragraph attributes share), the base layer's names, and any
   * other name the view layer's patch uses.
   */
  datatype PatchKey =
    | Own(key: PropKey)
    | EllipsizeModeKey | AdjustsFontSizeToFitKey | MinimumFontSizeKey | MaximumFontSizeKey
    | HyphenationFrequencyKey | TextAlignVerticalKey
    | DefaultValueKey | PlaceholderKey | PlaceholderTextColorKey | CursorColorKey
    | SelectionColorKey | SelectionHandleColorKey | UnderlineColorAndroidKey
    | MaxLengthKey | TextKey | MostRecentEventCountKey | AutoFocusKey | AutoCapitalizeKey
    | EditableKey | ReadOnlyKey | SubmitBehaviorKey | MultilineKey
    | DisableKeyboardShortcutsKey | AcceptDragAndDropTypesKey
    | View(name: string)
  {
    /** The name the key is written under. */
    function Name(): string {
      match this
      case Own(k) => k.Name()
      case EllipsizeModeKey => "ellipsizeMode"
      case AdjustsFontSizeToFitKey => "adjustsFontSizeToFit"
      case MinimumFontSizeKey => "minimumFontSize"
      case MaximumFontSizeKey => "maximumFontSize"
      case HyphenationFrequencyKey => "android_hyphenationFrequency"
      case TextAlignVerticalKey => "textAlignVertical"
      case DefaultValueKey => "defaultValue"
      case PlaceholderKey => "placeholder"
      case PlaceholderTextColorKey => "placeholderTextColor"
      case CursorColorKey => "cursorColor"
      case SelectionColorKey => "selectionColor"
      case SelectionHandleColorKey => "selectionHandleColor"
      case UnderlineColorAndroidKey => "underlineColorAndroid"
      case MaxLengthKey => "maxLength"
      case TextKey => "text"
      case MostRecentEventCountKey => "mostRecentEventCount"
      case AutoFocusKey => "autoFocus"
      case AutoCapitalizeKey => "autoCapitalize"
      case EditableKey => "editable"
      case ReadOnlyKey => "readOnly"
      case SubmitBehaviorKey => "submitBehavior"
      case MultilineKey => "multiline"
      case DisableKeyboardShortcutsKey => "disableKeyboardShortcuts"
      case AcceptDragAndDropTypesKey => "acceptDragAndDropTypes"
      case View(n) => n
    }
  }

  type Patch = map<PatchKey, Val>

  /** What the patch holds under `k`, if anything. */
  function ValueAt(m: Patch, k: PatchKey): Option<Val> {
    if k in m then Some(m[k]) else None
  }

  /**
   * One `if (x != oldProps->x) result["x"] = …;` of the source: the key, the
   * outcome of the comparison and the value written when it is true.
   */
  datatype Comparison = Comparison(key: PatchKey, changed: bool, emitted: Val) {
    /** The comparison writes under `k`. */
    predicate Writes(k: PatchKey) { changed && key == k }
  }

  /** One conditional insertion; a later insertion under the same key overwrites. */
  function Insert(m: Patch, c: Comparison): Patch {
    if c.changed then m[c.key := c.emitted] else m
  }

  /** The patch after the first `n` comparisons of `cs`, applied in order to `m`. */
  function ReplayFirst(m: Patch, cs: seq<Comparison>, n: nat): Patch
    requires n <= |cs|
  {
    if n == 0 then m else Insert(ReplayFirst(m, cs, n - 1), cs[n - 1])
  }

  /** The patch after every comparison of `cs`, applied in order to `m`. */
  function Replay(m: Patch, cs: seq<Comparison>): Patch {
    ReplayFirst(m, cs, |cs|)
  }

  /** The value written by the last of the first `n` comparisons that writes under `k`. */
  function LastWrite(k: PatchKey, cs: seq<Comparison>, n: nat): Option<Val>
    requires n <= |cs|
  {
    if n == 0 then None
    else if cs[n - 1].Writes(k) then Some(cs[n - 1].emitted)
    else LastWrite(k, cs, n - 1)
  }

  /** `Some` value of the first option, else the second. */
  function OrElse(a: Option<Val>, b: Option<Val>): Option<Val> {
    if a.Some? then a else b
  }

  /**
   * The key rule: after a replay, a key holds the value of the last
   * comparison that wrote under it; a key no comparison wrote keeps what the
   * starting patch held, including its absence.
   */
  lemma {:induction false} ReplayFirstValueAt(m: Patch, cs: seq<Comparison>, n: nat, k: PatchKey)
    requires n <= |cs|
    ensures ValueAt(ReplayFirst(m, cs, n), k) == OrElse(LastWrite(k, cs, n), ValueAt(m, k))
  {
    if n > 0 {
      ReplayFirstValueAt(m, cs, n - 1, k);
    }
  }

  /** The key rule for a whole replay. */
  lemma ReplayValueAt(m: Patch, cs: seq<Comparison>, k: PatchKey)
    ensures ValueAt(Replay(m, cs), k) == OrElse(LastWrite(k, cs, |cs|), ValueAt(m, k))
  {
    ReplayFirstValueAt(m, cs, |cs|, k);
  }

  /**
   * `LastWrite` finds the last writer: it is `Some(v)` exactly when some
   * comparison `i` among the first `n` writes `v` under `k` and none after it
   * writes under `k`.
   */
  lemma {:induction false} LastWriteIsLastWriter(k: PatchKey, cs: seq<Comparison>, n: nat, v: Val)
    requires n <= |cs|
    ensures LastWrite(k, cs, n) == Some(v) <==>
      exists i :: 0 <= i < n && cs[i].Writes(k) && cs[i].emitted == v &&
        forall j :: i < j < n ==> !cs[j].Writes(k)
  {
    if n > 0 {
      LastWriteIsLastWriter(k, cs, n - 1, v);
      if LastWrite(k, cs, n) == Some(v) && !cs[n - 1].Writes(k) {
        var i :| 0 <= i < n - 1 && cs[i].Writes(k) && cs[i].emitted == v &&
          forall j :: i < j < n - 1 ==> !cs[j].Writes(k);
        assert forall j :: i < j < n ==> !cs[j].Writes(k);
      }
    }
  }

  /** `LastWrite` is `None` exactly when none of the first `n` comparisons writes under `k`. */
  lemma {:induction false} LastWriteNone(k: PatchKey, cs: seq<Comparison>, n: nat)
    requires n <= |cs|
    ensures LastWrite(k, cs, n).None? <==> forall i :: 0 <= i < n ==> !cs[i].Writes(k)
  {
    if n > 0 {
      LastWriteNone(k, cs, n - 1);
    }
  }

  /** A replay's first `n` steps read only the first `n` comparisons. */
  lemma {:induction false} ReplayFirstPrefix(m: Patch, a: seq<Comparison>, b: seq<Comparison>, n: nat)
    requires n <= |a| && n <= |b|
    requires a[..n] == b[..n]
    ensures ReplayFirst(m, a, n) == ReplayFirst(m, b, n)
  {
    if n > 0 {
      assert a[n - 1] == a[..n][n - 1] == b[..n][n - 1] == b[n - 1];
      assert a[..n - 1] == a[..n][..n - 1];
      assert b[..n - 1] == b[..n][..n - 1];
      ReplayFirstPrefix(m, a, b, n - 1);
    }
  }

  /** Replaying the rest of a sequence after the first `|a|` comparisons. */
  lemma {:induction false} ReplayFirstAppend(m: Patch, a: seq<Comparison>, b: seq<Comparison>, n: nat)
    requires n <= |b|
    ensures ReplayFirst(m, a + b, |a| + n) == ReplayFirst(Replay(m, a), b, n)
  {
    if n == 0 {
      assert (a + b)[..|a|] == a[..|a|];
      ReplayFirstPrefix(m, a + b, a, |a|);
    } else {
      ReplayFirstAppend(m, a, b, n - 1);
      assert (a + b)[|a| + n - 1] == b[n - 1];
    }
  }

  /** Replaying two runs one after the other is replaying their concatenation. */
  lemma ReplayAppend(m: Patch, a: seq<Comparison>, b: seq<Comparison>)
    ensures Replay(m, a + b) == Replay(Replay(m, a), b)
  {
    ReplayFirstAppend(m, a, b, |b|);
  }

  /** A key ends up holding the value of the last comparison of the run that writes under it. */
  lemma ReplayLastWriter(m: Patch, cs: seq<Comparison>, k: PatchKey, i: nat)
    requires i < |cs| && cs[i].Writes(k)
    requires forall j :: i < j < |cs| ==> !cs[j].Writes(k)
    ensures ValueAt(Replay(m, cs), k) == Some(cs[i].emitted)
  {
    ReplayValueAt(m, cs, k);
    LastWriteIsLastWriter(k, cs, |cs|, cs[i].emitted);
  }

  /** A run in which no comparison found a change leaves the patch as it was. */
  lemma {:induction false} ReplayFirstUnchanged(m: Patch, cs: seq<Comparison>, n: nat)
    requires n <= |cs|
    requires forall i :: 0 <= i < n ==> !cs[i].changed
    ensures ReplayFirst(m, cs, n) == m
  {
    if n > 0 {
      ReplayFirstUnchanged(m, cs, n - 1);
    }
  }

  /** A key no comparison of the run writes under keeps its value and its absence. */
  lemma ReplayKeeps(m: Patch, cs: seq<Comparison>, k: PatchKey)
    requires forall i :: 0 <= i < |cs| ==> !cs[i].Writes(k)
    ensures ValueAt(Replay(m, cs), k) == ValueAt(m, k)
  {
    ReplayValueAt(m, cs, k);
    LastWriteNone(k, cs, |cs|);
  }

  /**
   * A key that only comparison `p` of the run is made under holds that
   * comparison's value when it found a change, and otherwise keeps what the
   * starting patch held.
   */
  lemma ReplaySoleWriter(m: Patch, cs: seq<Comparison>, k: PatchKey, p: nat)
    requires p < |cs| && cs[p].key == k
    requires forall j :: 0 <= j < |cs| && j != p ==> cs[j].key != k
    ensures ValueAt(Replay(m, cs), k) == if cs[p].changed then Some(cs[p].emitted) else ValueAt(m, k)
  {
    if cs[p].changed {
      ReplayLastWriter(m, cs, k, p);
    } else {
      ReplayKeeps(m, cs, k);
    }
  }
}
