/**
 * What a multi-value option's combo box reads from and writes to the settings
 * store: the seed scan and the write-through of a new selection.
 */
module ChoiceGroups {
  import opened Wrappers
  import opened InnerBuilderOptions
  import opened LinkedMaps
  import opened Descriptors
  import opened SettingsStores

  type GroupEntry = Entry<Nullable<InnerBuilderOption>>

  /** The entry has an identity, and that identity's key is `key`. */
  predicate Writes(e: GroupEntry, key: string)
  {
    e.value.NonNull? && e.value.value.Property() == key
  }

  /** The entry has an identity, and the store holds that identity as true. */
  predicate PersistedTrue(values: map<string, string>, e: GroupEntry)
  {
    e.value.NonNull? && IsTrue(values, e.value.value.Property())
  }

  /** No identity is reachable from two labels. */
  predicate DistinctIdentities(m: OptionMap)
  {
    forall i, j :: 0 <= i < j < |m| && m[i].value.NonNull? && m[j].value.NonNull? ==> m[i].value != m[j].value
  }

  /** At most one identity of the group is persisted true. */
  predicate AtMostOneTrue(values: map<string, string>, m: OptionMap)
  {
    forall i, j :: 0 <= i < |m| && 0 <= j < |m| && PersistedTrue(values, m[i]) && PersistedTrue(values, m[j]) ==>
      m[i].value == m[j].value
  }

  /** The index of the first entry, in map order, whose identity is persisted true (`|m|` if none). */
  function FirstTrue(values: map<string, string>, m: OptionMap): (i: nat)
    ensures i <= |m|
    ensures i < |m| ==> PersistedTrue(values, m[i])
    ensures forall j :: 0 <= j < i ==> !PersistedTrue(values, m[j])
  {
    if m == [] then 0
    else if PersistedTrue(values, m[0]) then 0
    else
      var rest := m[1..];
      assert forall j :: 0 <= j < |rest| ==> rest[j] == m[j + 1];
      1 + FirstTrue(values, rest)
  }

  /**
   * The label a freshly built combo box shows: the first label whose identity is
   * persisted true, else the first label (the combo box's own default), else
   * nothing for an empty map.
   */
  function SeedLabel(values: map<string, string>, m: OptionMap): Nullable<string>
  {
    var i := FirstTrue(values, m);
    if i < |m| then NonNull(m[i].key)
    else if m == [] then Null
    else NonNull(m[0].key)
  }

  /**
   * The seed, stated outright: nothing for an empty map; the label of the first
   * entry persisted true, when there is one; otherwise the first label.
   */
  lemma SeedLabelSpec(values: map<string, string>, m: OptionMap)
    ensures SeedLabel(values, m).Null? <==> m == []
    ensures forall i :: (0 <= i < |m| && PersistedTrue(values, m[i]) &&
                         (forall j :: 0 <= j < i ==> !PersistedTrue(values, m[j]))) ==>
      SeedLabel(values, m) == NonNull(m[i].key)
    ensures (forall i :: 0 <= i < |m| ==> !PersistedTrue(values, m[i])) && m != [] ==>
      SeedLabel(values, m) == NonNull(m[0].key)
  {
  }

  /**
   * The store after the combo box's item listener ran with `selected` as the
   * selected item: each entry with an identity, in map order, writes `"true"` if
   * its label is the selected one and `"false"` otherwise.
   */
  function ComboWrite(values: map<string, string>, m: OptionMap, selected: Nullable<string>): map<string, string>
  {
    if m == [] then values
    else
      var e := m[|m| - 1];
      var before := ComboWrite(values, m[..|m| - 1], selected);
      if e.value.NonNull? then before[e.value.value.Property() := BoolToString(NonNull(e.key) == selected)]
      else before
  }

  /** The last entry among the first `n` that writes `key` (-1 if none does). */
  function LastWriterBelow(m: OptionMap, key: string, n: nat): (i: int)
    requires n <= |m|
    ensures -1 <= i < n
    ensures i >= 0 ==> Writes(m[i], key) && forall j :: i < j < n ==> !Writes(m[j], key)
    ensures i == -1 ==> forall j :: 0 <= j < n ==> !Writes(m[j], key)
  {
    if n == 0 then -1
    else if Writes(m[n - 1], key) then n - 1
    else LastWriterBelow(m, key, n - 1)
  }

  /** The last entry that writes `key` (-1 if none does). */
  function LastWriter(m: OptionMap, key: string): (i: int)
    ensures -1 <= i < |m|
    ensures i >= 0 ==> Writes(m[i], key) && forall j :: i < j < |m| ==> !Writes(m[j], key)
    ensures i == -1 ==> forall j :: 0 <= j < |m| ==> !Writes(m[j], key)
  {
    LastWriterBelow(m, key, |m|)
  }

  /**
   * Key by key, the write-through leaves: for a key some entry writes, the value
   * its last writer writes; for any other key, the old entry (or none).
   */
  lemma {:induction false} ComboWriteAt(values: map<string, string>, m: OptionMap, selected: Nullable<string>, key: string)
    ensures var r := ComboWrite(values, m, selected); var i := LastWriter(m, key);
      && (i >= 0 ==> key in r && r[key] == BoolToString(NonNull(m[i].key) == selected))
      && (i < 0 ==> (key in r <==> key in values) && (key in values ==> r[key] == values[key]))
  {
    ComboWritePrefixAt(values, m, selected, key, |m|);
    assert m[..|m|] == m;
  }

  /** `ComboWriteAt` for the first `n` entries, by induction on `n`. */
  lemma {:induction false} ComboWritePrefixAt(values: map<string, string>, m: OptionMap, selected: Nullable<string>,
                                              key: string, n: nat)
    requires n <= |m|
    ensures var r := ComboWrite(values, m[..n], selected); var i := LastWriterBelow(m, key, n);
      && (i >= 0 ==> key in r && r[key] == BoolToString(NonNull(m[i].key) == selected))
      && (i < 0 ==> (key in r <==> key in values) && (key in values ==> r[key] == values[key]))
  {
    if n > 0 {
      ComboWritePrefixAt(values, m, selected, key, n - 1);
      assert m[..n][..n - 1] == m[..n - 1];
      assert m[..n][n - 1] == m[n - 1];
    }
  }

  /** The write-through touches only the keys of the group's identities. */
  lemma ComboWriteFrame(values: map<string, string>, m: OptionMap, selected: Nullable<string>, key: string)
    requires forall j :: 0 <= j < |m| ==> !Writes(m[j], key)
    ensures key in ComboWrite(values, m, selected) <==> key in values
    ensures key in values ==> ComboWrite(values, m, selected)[key] == values[key]
  {
    ComboWriteAt(values, m, selected, key);
  }

  /** With distinct identities, entry `j` is the only, hence the last, writer of its key. */
  lemma LastWriterOfIdentity(m: OptionMap, j: nat)
    requires DistinctIdentities(m)
    requires j < |m| && m[j].value.NonNull?
    ensures LastWriter(m, m[j].value.value.Property()) == j
  {
    var key := m[j].value.value.Property();
    var i := LastWriter(m, key);
    assert Writes(m[j], key);
    if i != j {
      assert i > j;
      PropertyInjective(m[i].value.value, m[j].value.value);
    }
  }

  /**
   * After selecting `selected`, every identity of the group reads true exactly
   * when its label is the selected one.
   */
  lemma ComboWriteReads(values: map<string, string>, m: OptionMap, selected: Nullable<string>, j: nat)
    requires DistinctIdentities(m)
    requires j < |m| && m[j].value.NonNull?
    ensures PersistedTrue(ComboWrite(values, m, selected), m[j]) <==> NonNull(m[j].key) == selected
    ensures m[j].value.value.Property() in ComboWrite(values, m, selected)
  {
    ComboWriteAt(values, m, selected, m[j].value.value.Property());
    LastWriterOfIdentity(m, j);
  }

  /** Selecting a label that has an identity makes that identity read true. */
  lemma ChosenIdentityTrue(values: map<string, string>, m: OptionMap, j: nat)
    requires DistinctIdentities(m)
    requires j < |m| && m[j].value.NonNull?
    ensures IsTrue(ComboWrite(values, m, NonNull(m[j].key)), m[j].value.value.Property())
  {
    ComboWriteReads(values, m, NonNull(m[j].key), j);
  }

  /**
   * Every identity whose label is not the selected one reads `"false"`; so
   * selecting the `None` label (which has no identity) clears the whole group.
   */
  lemma OtherIdentitiesFalse(values: map<string, string>, m: OptionMap, selected: Nullable<string>, j: nat)
    requires DistinctIdentities(m)
    requires j < |m| && m[j].value.NonNull? && NonNull(m[j].key) != selected
    ensures var r := ComboWrite(values, m, selected);
      m[j].value.value.Property() in r && r[m[j].value.value.Property()] == "false"
  {
    var key := m[j].value.value.Property();
    ComboWriteAt(values, m, selected, key);
    LastWriterOfIdentity(m, j);
  }

  /** Running the handler again for the same selection changes nothing. */
  lemma ComboWriteIdempotent(values: map<string, string>, m: OptionMap, selected: Nullable<string>)
    ensures ComboWrite(ComboWrite(values, m, selected), m, selected) == ComboWrite(values, m, selected)
  {
    var once := ComboWrite(values, m, selected);
    var twice := ComboWrite(once, m, selected);
    forall key
      ensures key in twice <==> key in once
      ensures key in once ==> twice[key] == once[key]
    {
      ComboWriteAt(values, m, selected, key);
      ComboWriteAt(once, m, selected, key);
    }
  }

  /** Labels of an ordered map are unique, so after a change at most one identity reads true. */
  lemma ComboWriteExclusive(values: map<string, string>, m: OptionMap, selected: Nullable<string>)
    requires DistinctKeys(m)
    ensures AtMostOneTrue(ComboWrite(values, m, selected), m)
  {
    var r := ComboWrite(values, m, selected);
    forall i, j | 0 <= i < |m| && 0 <= j < |m| && PersistedTrue(r, m[i]) && PersistedTrue(r, m[j])
      ensures m[i].value == m[j].value
    {
      var ki := m[i].value.value.Property();
      var kj := m[j].value.value.Property();
      ComboWriteAt(values, m, selected, ki);
      ComboWriteAt(values, m, selected, kj);
      var wi := LastWriter(m, ki);
      var wj := LastWriter(m, kj);
      assert Writes(m[i], ki) && Writes(m[j], kj);
      assert NonNull(m[wi].key) == selected && NonNull(m[wj].key) == selected;
      assert wi == wj;
      PropertyInjective(m[i].value.value, m[wi].value.value);
      PropertyInjective(m[j].value.value, m[wj].value.value);
    }
  }

  /**
   * Re-opening the selector after selecting label `m[i].key` shows that label
   * again, provided it has an identity or is the first label (the `None` label).
   */
  lemma ReseedAfterSelect(values: map<string, string>, m: OptionMap, i: nat)
    requires DistinctKeys(m) && DistinctIdentities(m)
    requires i < |m| && (m[i].value.NonNull? || i == 0)
    ensures SeedLabel(ComboWrite(values, m, NonNull(m[i].key)), m) == NonNull(m[i].key)
  {
    var r := ComboWrite(values, m, NonNull(m[i].key));
    forall j | 0 <= j < |m| && m[j].value.NonNull?
      ensures PersistedTrue(r, m[j]) <==> j == i
    {
      ComboWriteReads(values, m, NonNull(m[i].key), j);
    }
    var f := FirstTrue(r, m);
    if m[i].value.NonNull? {
      assert PersistedTrue(r, m[i]);
      assert f == i;
    } else {
      assert f == |m|;
    }
  }
}
