/** `SelectorOption.Builder`: the mutable fluent builder of a toggle descriptor. */
module SelectorOptions {
  import opened Wrappers
  import opened InnerBuilderOptions
  import opened Descriptors

  class Builder {
    var option: Nullable<InnerBuilderOption>
    var caption: Nullable<string>
    var mnemonic: char
    var toolTip: Nullable<string>
    /** The `with*` calls made so far, in order. */
    ghost var calls: seq<BuilderCall>

    /** The fields are what the recorded calls leave behind. */
    ghost predicate Valid()
      reads this
    {
      var s := Replay(calls);
      option == s.option && caption == s.caption && mnemonic == s.mnemonic && toolTip == s.toolTip
    }

    /** `SelectorOption.newBuilder()`: every field at its Java default. */
    constructor ()
      ensures Valid() && calls == []
      ensures option == Null && caption == Null && mnemonic == '\0' && toolTip == Null
    {
      option, caption, mnemonic, toolTip := Null, Null, '\0', Null;
      calls := [];
    }

    method WithOption(o: Nullable<InnerBuilderOption>) returns (b: Builder)
      requires Valid()
      modifies this
      ensures Valid() && b == this && calls == old(calls) + [OptionCall(o)]
      ensures option == o
      ensures caption == old(caption) && mnemonic == old(mnemonic) && toolTip == old(toolTip)
    {
      option := o;
      calls := calls + [OptionCall(o)];
      assert calls[..|calls| - 1] == old(calls);
      b := this;
    }

    method WithCaption(c: Nullable<string>) returns (b: Builder)
      requires Valid()
      modifies this
      ensures Valid() && b == this && calls == old(calls) + [CaptionCall(c)]
      ensures caption == c
      ensures option == old(option) && mnemonic == old(mnemonic) && toolTip == old(toolTip)
    {
      caption := c;
      calls := calls + [CaptionCall(c)];
      assert calls[..|calls| - 1] == old(calls);
      b := this;
    }

    method WithMnemonic(ch: char) returns (b: Builder)
      requires Valid()
      modifies this
      ensures Valid() && b == this && calls == old(calls) + [MnemonicCall(ch)]
      ensures mnemonic == ch
      ensures option == old(option) && caption == old(caption) && toolTip == old(toolTip)
    {
      mnemonic := ch;
      calls := calls + [MnemonicCall(ch)];
      assert calls[..|calls| - 1] == old(calls);
      b := this;
    }

    method WithToolTip(t: Nullable<string>) returns (b: Builder)
      requires Valid()
      modifies this
      ensures Valid() && b == this && calls == old(calls) + [ToolTipCall(t)]
      ensures toolTip == t
      ensures option == old(option) && caption == old(caption) && mnemonic == old(mnemonic)
    {
      toolTip := t;
      calls := calls + [ToolTipCall(t)];
      assert calls[..|calls| - 1] == old(calls);
      b := this;
    }

    /**
     * `build()`: a toggle descriptor holding the builder's current fields, which
     * are the values the recorded calls leave (see `ReplayLastCallWins`).
     */
    method Build() returns (d: OptionDescriptor)
      requires Valid()
      ensures d.SelectorOption?
      ensures d.option == option && d.caption == caption
      ensures d.mnemonic == mnemonic && d.toolTip == toolTip
      ensures var s := Replay(calls);
        d.option == s.option && d.caption == s.caption && d.mnemonic == s.mnemonic && d.toolTip == s.toolTip
    {
      d := SelectorOption(option, caption, mnemonic, toolTip);
    }
  }
}
