/**
 * Option descriptors (the `Option` interface and its two implementations) and
 * the meaning of a sequence of fluent builder calls.
 */
module Descriptors {
  import opened Wrappers
  import opened InnerBuilderOptions
  import opened LinkedMaps

  /** The label -> identity-or-null map of a multi-value option. */
  type OptionMap = OrderedMap<Nullable<InnerBuilderOption>>

  /**
   * An immutable option descriptor. `caption`, `mnemonic` and `toolTip` are the
   * three getters of the `Option` interface shared by both variants.
   */
  datatype OptionDescriptor =
    | SelectorOption(option: Nullable<InnerBuilderOption>, caption: Nullable<string>,
                     mnemonic: char, toolTip: Nullable<string>)
    | MultiValueOption(optionMap: Nullable<OptionMap>, caption: Nullable<string>,
                       mnemonic: char, toolTip: Nullable<string>)

  /** One fluent `with*` call, with the argument it was given. */
  datatype BuilderCall =
    | OptionCall(option: Nullable<InnerBuilderOption>)
    | OptionMapCall(optionMap: Nullable<OptionMap>)
    | CaptionCall(caption: Nullable<string>)
    | MnemonicCall(mnemonic: char)
    | ToolTipCall(toolTip: Nullable<string>)

  /** The fields a builder accumulates (a selector builder never touches `optionMap`). */
  datatype BuilderState = BuilderState(option: Nullable<InnerBuilderOption>,
                                       optionMap: Nullable<OptionMap>,
                                       caption: Nullable<string>,
                                       mnemonic: char,
                                       toolTip: Nullable<string>)

  /** Java's field defaults: every reference null, the `char` field `'\0'`. */
  const Defaults: BuilderState := BuilderState(Null, Null, Null, '\0', Null)

  /** The effect of one call: it assigns its own field. */
  function Step(s: BuilderState, c: BuilderCall): BuilderState
  {
    match c
    case OptionCall(o) => s.(option := o)
    case OptionMapCall(m) => s.(optionMap := m)
    case CaptionCall(t) => s.(caption := t)
    case MnemonicCall(ch) => s.(mnemonic := ch)
    case ToolTipCall(t) => s.(toolTip := t)
  }

  /** The state reached from a fresh builder by the calls, in order. */
  function Replay(calls: seq<BuilderCall>): BuilderState
  {
    if calls == [] then Defaults
    else Step(Replay(calls[..|calls| - 1]), calls[|calls| - 1])
  }

  /** Both calls go to the same builder field. */
  predicate SameField(a: BuilderCall, b: BuilderCall)
  {
    (a.OptionCall? && b.OptionCall?) || (a.OptionMapCall? && b.OptionMapCall?) ||
    (a.CaptionCall? && b.CaptionCall?) || (a.MnemonicCall? && b.MnemonicCall?) ||
    (a.ToolTipCall? && b.ToolTipCall?)
  }

  /** The field that `c` addresses holds `c`'s argument in `s`. */
  predicate Holds(s: BuilderState, c: BuilderCall)
  {
    match c
    case OptionCall(o) => s.option == o
    case OptionMapCall(m) => s.optionMap == m
    case CaptionCall(t) => s.caption == t
    case MnemonicCall(ch) => s.mnemonic == ch
    case ToolTipCall(t) => s.toolTip == t
  }

  /** `s` and `t` agree on the field that `c` addresses. */
  predicate Agree(s: BuilderState, t: BuilderState, c: BuilderCall)
  {
    match c
    case OptionCall(_) => s.option == t.option
    case OptionMapCall(_) => s.optionMap == t.optionMap
    case CaptionCall(_) => s.caption == t.caption
    case MnemonicCall(_) => s.mnemonic == t.mnemonic
    case ToolTipCall(_) => s.toolTip == t.toolTip
  }

  /** A call sets its own field and leaves every other field as it was. */
  lemma StepAssignsOnlyItsField(s: BuilderState, c: BuilderCall, p: BuilderCall)
    ensures Holds(Step(s, c), c)
    ensures !SameField(c, p) ==> Agree(Step(s, c), s, p)
  {
  }

  /** The last call to a field decides its value, whatever follows on other fields. */
  lemma {:induction false} ReplayLastCallWins(calls: seq<BuilderCall>, i: nat)
    requires i < |calls|
    requires forall j :: i < j < |calls| ==> !SameField(calls[i], calls[j])
    ensures Holds(Replay(calls), calls[i])
  {
    var n := |calls| - 1;
    if i == n {
      StepAssignsOnlyItsField(Replay(calls[..n]), calls[n], calls[i]);
    } else {
      assert calls[..n][i] == calls[i];
      ReplayLastCallWins(calls[..n], i);
      StepAssignsOnlyItsField(Replay(calls[..n]), calls[n], calls[i]);
      assert !SameField(calls[n], calls[i]) by {
        assert !SameField(calls[i], calls[n]);
      }
    }
  }

  /** A field no call addresses keeps its Java default. */
  lemma {:induction false} ReplayUncalledFieldIsDefault(calls: seq<BuilderCall>, p: BuilderCall)
    requires forall j :: 0 <= j < |calls| ==> !SameField(calls[j], p)
    ensures Agree(Replay(calls), Defaults, p)
  {
    if calls != [] {
      var n := |calls| - 1;
      ReplayUncalledFieldIsDefault(calls[..n], p);
      StepAssignsOnlyItsField(Replay(calls[..n]), calls[n], p);
    }
  }

  /** Two adjacent calls to different fields may be made in either order. */
  lemma {:induction false} ReplaySwap(pre: seq<BuilderCall>, a: BuilderCall, b: BuilderCall, post: seq<BuilderCall>)
    requires !SameField(a, b)
    ensures Replay(pre + [a, b] + post) == Replay(pre + [b, a] + post)
  {
    var x := pre + [a, b] + post;
    var y := pre + [b, a] + post;
    if post == [] {
      assert x == pre + [a] + [b] && (pre + [a] + [b])[..|x| - 1] == pre + [a];
      assert y == pre + [b] + [a] && (pre + [b] + [a])[..|y| - 1] == pre + [b];
      assert (pre + [a])[..|pre|] == pre && (pre + [b])[..|pre|] == pre;
    } else {
      var n := |post| - 1;
      assert x[..|x| - 1] == pre + [a, b] + post[..n];
      assert y[..|y| - 1] == pre + [b, a] + post[..n];
      assert x[|x| - 1] == y[|y| - 1] == post[n];
      ReplaySwap(pre, a, b, post[..n]);
    }
  }
}
