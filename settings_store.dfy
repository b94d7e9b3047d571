/**
 * The persisted settings store (IntelliJ's `PropertiesComponent`) as an
 * in-memory map from key to string value.
 */
module SettingsStores {

  /** `Boolean.valueOf(s)`: the text is "true" in any mix of upper and lower case. */
  predicate IsTrueText(s: string)
  {
    |s| == 4 && s[0] in "tT" && s[1] in "rR" && s[2] in "uU" && s[3] in "eE"
  }

  /** `isTrueValue(key)`: the key is present and its value parses as true (an absent key reads false). */
  predicate IsTrue(values: map<string, string>, key: string)
  {
    key in values && IsTrueText(values[key])
  }

  /** `Boolean.toString(b)`. */
  function BoolToString(b: bool): (s: string)
    ensures s == "true" || s == "false"
  {
    if b then "true" else "false"
  }

  /** Writing `Boolean.toString(b)` reads back as `b`; every other key reads as before. */
  lemma WriteThenRead(values: map<string, string>, key: string, b: bool, other: string)
    ensures IsTrue(values[key := BoolToString(b)], key) == b
    ensures other != key ==> IsTrue(values[key := BoolToString(b)], other) == IsTrue(values, other)
  {
  }

  class SettingsStore {
    var values: map<string, string>

    constructor (initial: map<string, string>)
      ensures values == initial
    {
      values := initial;
    }

    function IsTrueValue(key: string): bool
      reads this
    {
      IsTrue(values, key)
    }

    /** `setValue(key, value)`: overwrites or creates the one entry. */
    method SetValue(key: string, value: string)
      modifies this
      ensures values == old(values)[key := value]
    {
      values := values[key := value];
    }
  }
}
