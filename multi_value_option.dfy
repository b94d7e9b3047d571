/** `MultiValueOption.Builder`: the mutable fluent builder of a choice descriptor. */
module MultiValueOptions {
  import opened Wrappers
  import opened Descriptors

  class Builder {
    /** Held as given: the built descriptor neither copies nor reorders it. */
    var optionMap: Nullable<OptionMap>
    var caption: Nullable<string>
    var mnemonic: char
    var toolTip: Nullable<string>
    /** The `with*` calls made so far, in order. */
    ghost var calls: seq<BuilderCall>

    /** The fields are what the recorded calls leave behind. */
    ghost predicate Valid()
      reads this
    {
      var s := Replay(calls);
      optionMap == s.optionMap && caption == s.caption && mnemonic == s.mnemonic && toolTip == s.toolTip
    }

    /** `MultiValueOption.newBuilder()`: every field at its Java default. */
    constructor ()
      ensures Valid() && calls == []
      ensures optionMap == Null && caption == Null && mnemonic == '\0' && toolTip == Null
    {
      optionMap, caption, mnemonic, toolTip := Null, Null, '\0', Null;
      calls := [];
    }

    method WithOptionMap(m: Nullable<OptionMap>) returns (b: Builder)
      requires Valid()
      modifies this
      ensures Valid() && b == this && calls == old(calls) + [OptionMapCall(m)]
      ensures optionMap == m
      ensures caption == old(caption) && mnemonic == old(mnemonic) && toolTip == old(toolTip)
    {
      optionMap := m;
      calls := calls + [OptionMapCall(m)];
      assert calls[..|calls| - 1] == old(calls);
      b := this;
    }

    method WithCaption(c: Nullable<string>) returns (b: Builder)
      requires Valid()
      modifies this
      ensures Valid() && b == this && calls == old(calls) + [CaptionCall(c)]
      ensures caption == c
      ensures optionMap == old(optionMap) && mnemonic == old(mnemonic) && toolTip == old(toolTip)
    {
      caption := c;
      calls := calls + [CaptionCall(c)];
      assert calls[..|calls| - 1] == old(calls);
      b := this;
    }

    method WithMnemonic(ch: char) returns (b: Builder)
      requires Valid()
      modifies this
      ensures Valid() && b == this && calls == old(calls) + [MnemonicCall(ch)]
      ensures mnemonic == ch
      ensures optionMap == old(optionMap) && caption == old(caption) && toolTip == old(toolTip)
    {
      mnemonic := ch;
      calls := calls + [MnemonicCall(ch)];
      assert calls[..|calls| - 1] == old(calls);
      b := this;
    }

    method WithToolTip(t: Nullable<string>) returns (b: Builder)
      requires Valid()
      modifies this
      ensures Valid() && b == this && calls == old(calls) + [ToolTipCall(t)]
      ensures toolTip == t
      ensures optionMap == old(optionMap) && caption == old(caption) && mnemonic == old(mnemonic)
    {
      toolTip := t;
      calls := calls + [ToolTipCall(t)];
      assert calls[..|calls| - 1] == old(calls);
      b := this;
    }

    /**
     * `build()`: a choice descriptor holding the builder's current fields, which
     * are the values the recorded calls leave (see `ReplayLastCallWins`).
     */
    method Build() returns (d: OptionDescriptor)
      requires Valid()
      ensures d.MultiValueOption?
      ensures d.optionMap == optionMap && d.caption == caption
      ensures d.mnemonic == mnemonic && d.toolTip == toolTip
      ensures var s := Replay(calls);
        d.optionMap == s.optionMap && d.caption == s.caption && d.mnemonic == s.mnemonic && d.toolTip == s.toolTip
    {
      d := MultiValueOption(optionMap, caption, mnemonic, toolTip);
    }
  }
}
