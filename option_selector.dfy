/**
 * `InnerBuilderOptionSelector`: the fixed option catalogue, the view model of
 * each option's component with its write-through handler, and the selection
 * session that yields the chosen fields.
 */
module OptionSelector {
  import opened Wrappers
  import opened InnerBuilderOptions
  import opened LinkedMaps
  import opened Descriptors
  import opened SettingsStores
  import opened ChoiceGroups
  import SelectorOptions
  import MultiValueOptions

  // ---------------------------------------------------------------------------
  // The catalogue

  // Captions and tool tips passed to the builders.
  const FinalSettersCaption: string := "Generate builder methods for final fields"
  const MakeFieldsFinalCaption: string := "Make original fields final for builder methods"
  const NewBuilderMethodCaption: string := "Generate static newBuilder() method"
  const CopyConstructorCaption: string := "Generate builder copy constructor"
  const PrefixCaption: string := "Prefix for builder methods"
  const PrefixToolTip: string := "Generate builder methods that start with the select prefix or None, for example: "
    + "builder.withName(String name)"
  const Jsr305Caption: string := "Add JSR-305 @Nonnull annotation"
  const Jsr305ToolTip: string := "Add @Nonnull annotations to generated methods and parameters, for example: "
    + "@Nonnull public Builder withName(@Nonnull String name) { ... }"
  const FindbugsCaption: string := "Add Findbugs @NonNull annotation"
  const FindbugsToolTip: string := "Add @NonNull annotations to generated methods and parameters, for example: "
    + "@NonNull public Builder withName(@NonNull String name) { ... }"
  const JavadocCaption: string := "Add Javadoc"
  const JavadocToolTip: string := "Add Javadoc to generated builder class and methods"

  /** The labels of the prefix choice, in insertion order. */
  function PrefixMap(): OptionMap
  {
    [Entry("None", Null), Entry("'with'", NonNull(WithNotation)), Entry("'set'", NonNull(SetNotation))]
  }

  // The eight descriptors `createGeneratorOptions` builds.
  const FinalSettersOption: OptionDescriptor :=
    SelectorOption(NonNull(FinalSetters), NonNull(FinalSettersCaption), 'f', Null)
  const MakeFieldsFinalOption: OptionDescriptor :=
    SelectorOption(NonNull(MakeFieldsFinal), NonNull(MakeFieldsFinalCaption), 'm', Null)
  const NewBuilderMethodOption: OptionDescriptor :=
    SelectorOption(NonNull(NewBuilderMethod), NonNull(NewBuilderMethodCaption), 'n', Null)
  const CopyConstructorOption: OptionDescriptor :=
    SelectorOption(NonNull(CopyConstructor), NonNull(CopyConstructorCaption), 'o', Null)
  const PrefixOption: OptionDescriptor :=
    MultiValueOption(NonNull(PrefixMap()), NonNull(PrefixCaption), 'p', NonNull(PrefixToolTip))
  const Jsr305Option: OptionDescriptor :=
    SelectorOption(NonNull(Jsr305Annotations), NonNull(Jsr305Caption), 'j', NonNull(Jsr305ToolTip))
  const FindbugsOption: OptionDescriptor :=
    SelectorOption(NonNull(FindbugsAnnotation), NonNull(FindbugsCaption), 'b', NonNull(FindbugsToolTip))
  const JavadocOption: OptionDescriptor :=
    SelectorOption(NonNull(WithJavadoc), NonNull(JavadocCaption), 'c', NonNull(JavadocToolTip))

  /** The catalogue (the static `OPTIONS` list), in presentation order. */
  function Catalogue(): seq<OptionDescriptor>
  {
    [FinalSettersOption, MakeFieldsFinalOption, NewBuilderMethodOption, CopyConstructorOption,
     PrefixOption, Jsr305Option, FindbugsOption, JavadocOption]
  }

  /** The three `put` calls that fill the prefix choice's `LinkedHashMap`. */
  method CreatePrefixMap() returns (prefixMap: OptionMap)
    ensures prefixMap == PrefixMap()
  {
    prefixMap := [];
    prefixMap := Put(prefixMap, "None", Null);
    assert prefixMap == [Entry("None", Null)];
    prefixMap := Put(prefixMap, "'with'", NonNull(WithNotation));
    assert prefixMap == [Entry("None", Null), Entry("'with'", NonNull(WithNotation))];
    prefixMap := Put(prefixMap, "'set'", NonNull(SetNotation));
  }

  /** The builder chain that adds the FINAL_SETTERS descriptor. */
  method CreateFinalSettersOption() returns (d: OptionDescriptor)
    ensures d == FinalSettersOption
  {
    var s := new SelectorOptions.Builder();
    s := s.WithCaption(NonNull(FinalSettersCaption));
    s := s.WithMnemonic('f');
    s := s.WithOption(NonNull(FinalSetters));
    d := s.Build();
  }

  /** The builder chain that adds the MAKE_FIELDS_FINAL descriptor. */
  method CreateMakeFieldsFinalOption() returns (d: OptionDescriptor)
    ensures d == MakeFieldsFinalOption
  {
    var s := new SelectorOptions.Builder();
    s := s.WithCaption(NonNull(MakeFieldsFinalCaption));
    s := s.WithMnemonic('m');
    s := s.WithOption(NonNull(MakeFieldsFinal));
    d := s.Build();
  }

  /** The builder chain that adds the NEW_BUILDER_METHOD descriptor. */
  method CreateNewBuilderMethodOption() returns (d: OptionDescriptor)
    ensures d == NewBuilderMethodOption
  {
    var s := new SelectorOptions.Builder();
    s := s.WithOption(NonNull(NewBuilderMethod));
    s := s.WithCaption(NonNull(NewBuilderMethodCaption));
    s := s.WithMnemonic('n');
    d := s.Build();
  }

  /** The builder chain that adds the COPY_CONSTRUCTOR descriptor. */
  method CreateCopyConstructorOption() returns (d: OptionDescriptor)
    ensures d == CopyConstructorOption
  {
    var s := new SelectorOptions.Builder();
    s := s.WithCaption(NonNull(CopyConstructorCaption));
    s := s.WithMnemonic('o');
    s := s.WithOption(NonNull(CopyConstructor));
    d := s.Build();
  }

  /** The builder chain that adds the prefix choice descriptor. */
  method CreatePrefixOption(prefixMap: OptionMap) returns (d: OptionDescriptor)
    requires prefixMap == PrefixMap()
    ensures d == PrefixOption
  {
    var mv := new MultiValueOptions.Builder();
    mv := mv.WithCaption(NonNull(PrefixCaption));
    mv := mv.WithMnemonic('p');
    mv := mv.WithToolTip(NonNull(PrefixToolTip));
    mv := mv.WithOptionMap(NonNull(prefixMap));
    d := mv.Build();
  }

  /** The builder chain that adds the JSR305_ANNOTATIONS descriptor. */
  method CreateJsr305Option() returns (d: OptionDescriptor)
    ensures d == Jsr305Option
  {
    var s := new SelectorOptions.Builder();
    s := s.WithCaption(NonNull(Jsr305Caption));
    s := s.WithMnemonic('j');
    s := s.WithToolTip(NonNull(Jsr305ToolTip));
    s := s.WithOption(NonNull(Jsr305Annotations));
    d := s.Build();
  }

  /** The builder chain that adds the FINDBUGS_ANNOTATION descriptor. */
  method CreateFindbugsOption() returns (d: OptionDescriptor)
    ensures d == FindbugsOption
  {
    var s := new SelectorOptions.Builder();
    s := s.WithCaption(NonNull(FindbugsCaption));
    s := s.WithMnemonic('b');
    s := s.WithToolTip(NonNull(FindbugsToolTip));
    s := s.WithOption(NonNull(FindbugsAnnotation));
    d := s.Build();
  }

  /** The builder chain that adds the WITH_JAVADOC descriptor. */
  method CreateJavadocOption() returns (d: OptionDescriptor)
    ensures d == JavadocOption
  {
    var s := new SelectorOptions.Builder();
    s := s.WithCaption(NonNull(JavadocCaption));
    s := s.WithMnemonic('c');
    s := s.WithToolTip(NonNull(JavadocToolTip));
    s := s.WithOption(NonNull(WithJavadoc));
    d := s.Build();
  }

  /** `createGeneratorOptions()`: the catalogue, each descriptor built through its fluent builder. */
  method CreateGeneratorOptions() returns (options: seq<OptionDescriptor>)
    ensures options == Catalogue()
  {
    options := [];
    var prefixMap := CreatePrefixMap();
    var d := CreateFinalSettersOption();
    options := options + [d];
    d := CreateMakeFieldsFinalOption();
    options := options + [d];
    d := CreateNewBuilderMethodOption();
    options := options + [d];
    d := CreateCopyConstructorOption();
    options := options + [d];
    d := CreatePrefixOption(prefixMap);
    options := options + [d];
    d := CreateJsr305Option();
    options := options + [d];
    d := CreateFindbugsOption();
    options := options + [d];
    d := CreateJavadocOption();
    options := options + [d];
  }

  /** The descriptor can be turned into a component without dereferencing a null. */
  predicate Buildable(d: OptionDescriptor)
  {
    match d
    case SelectorOption(o, _, _, _) => o.NonNull?
    case MultiValueOption(m, _, _, _) => m.NonNull?
  }

  /**
   * The catalogue's shape: eight entries, the fifth the only choice option
   * (carrying the prefix map), every other a toggle; every toggle has an
   * identity, so no component build meets a null.
   */
  lemma CatalogueShape()
    ensures |Catalogue()| == 8
    ensures forall i :: 0 <= i < 8 ==> (Catalogue()[i].MultiValueOption? <==> i == 4)
    ensures Catalogue()[4].optionMap == NonNull(PrefixMap())
    ensures Keys(PrefixMap()) == ["None", "'with'", "'set'"]
    ensures PrefixMap()[0].value == Null && PrefixMap()[1].value == NonNull(WithNotation)
    ensures PrefixMap()[2].value == NonNull(SetNotation)
    ensures forall i :: 0 <= i < 8 ==> Buildable(Catalogue()[i])
  {
  }

  /** The identities a descriptor refers to: a toggle's own, a choice's non-null map values in order. */
  function DescriptorIdentities(d: OptionDescriptor): seq<InnerBuilderOption>
  {
    match d
    case SelectorOption(o, _, _, _) => if o.NonNull? then [o.value] else []
    case MultiValueOption(m, _, _, _) => if m.NonNull? then MapIdentities(m.value) else []
  }

  /** The non-null values of an option map, in map order. */
  function MapIdentities(m: OptionMap): seq<InnerBuilderOption>
  {
    if m == [] then []
    else (if m[0].value.NonNull? then [m[0].value.value] else []) + MapIdentities(m[1..])
  }

  /** The identities of the descriptors from position `k` on, in catalogue order. */
  function IdentitiesFrom(options: seq<OptionDescriptor>, k: nat): seq<InnerBuilderOption>
    decreases |options| - k
  {
    if k >= |options| then [] else DescriptorIdentities(options[k]) + IdentitiesFrom(options, k + 1)
  }

  /** The identities of a list of descriptors, in catalogue order. */
  function Identities(options: seq<OptionDescriptor>): seq<InnerBuilderOption>
  {
    IdentitiesFrom(options, 0)
  }

  /** The identities of any eight descriptors that name the catalogue's identities, position by position. */
  lemma IdentitiesOfCatalogueShape(c: seq<OptionDescriptor>)
    requires |c| == 8
    requires DescriptorIdentities(c[0]) == [FinalSetters]
    requires DescriptorIdentities(c[1]) == [MakeFieldsFinal]
    requires DescriptorIdentities(c[2]) == [NewBuilderMethod]
    requires DescriptorIdentities(c[3]) == [CopyConstructor]
    requires DescriptorIdentities(c[4]) == [WithNotation, SetNotation]
    requires DescriptorIdentities(c[5]) == [Jsr305Annotations]
    requires DescriptorIdentities(c[6]) == [FindbugsAnnotation]
    requires DescriptorIdentities(c[7]) == [WithJavadoc]
    ensures Identities(c) ==
      [FinalSetters, MakeFieldsFinal, NewBuilderMethod, CopyConstructor, WithNotation, SetNotation,
       Jsr305Annotations, FindbugsAnnotation, WithJavadoc]
  {
    assert IdentitiesFrom(c, 8) == [];
    assert IdentitiesFrom(c, 7) == [WithJavadoc];
    assert IdentitiesFrom(c, 6) == [FindbugsAnnotation, WithJavadoc];
    assert IdentitiesFrom(c, 5) == [Jsr305Annotations, FindbugsAnnotation, WithJavadoc];
    assert IdentitiesFrom(c, 4) == [WithNotation, SetNotation, Jsr305Annotations, FindbugsAnnotation, WithJavadoc];
    assert IdentitiesFrom(c, 3) ==
      [CopyConstructor, WithNotation, SetNotation, Jsr305Annotations, FindbugsAnnotation, WithJavadoc];
    assert IdentitiesFrom(c, 2) ==
      [NewBuilderMethod, CopyConstructor, WithNotation, SetNotation, Jsr305Annotations, FindbugsAnnotation,
       WithJavadoc];
    assert IdentitiesFrom(c, 1) ==
      [MakeFieldsFinal, NewBuilderMethod, CopyConstructor, WithNotation, SetNotation, Jsr305Annotations,
       FindbugsAnnotation, WithJavadoc];
  }

  /** The catalogue's identities, toggles and choice values, in presentation order. */
  lemma CatalogueIdentities()
    ensures Identities(Catalogue()) ==
      [FinalSetters, MakeFieldsFinal, NewBuilderMethod, CopyConstructor, WithNotation, SetNotation,
       Jsr305Annotations, FindbugsAnnotation, WithJavadoc]
  {
    assert MapIdentities(PrefixMap()) == [WithNotation, SetNotation] by {
      assert PrefixMap()[1..] == [Entry("'with'", NonNull(WithNotation)), Entry("'set'", NonNull(SetNotation))];
      assert PrefixMap()[1..][1..] == [Entry("'set'", NonNull(SetNotation))];
    }
    IdentitiesOfCatalogueShape(Catalogue());
  }

  /** The catalogue's identity list holds every constant, none twice. */
  lemma ListedOnce(ids: seq<InnerBuilderOption>)
    requires ids ==
      [FinalSetters, MakeFieldsFinal, NewBuilderMethod, CopyConstructor, WithNotation, SetNotation,
       Jsr305Annotations, FindbugsAnnotation, WithJavadoc]
    ensures |ids| == |Values()|
    ensures forall o: InnerBuilderOption :: o in ids
    ensures forall i, j :: 0 <= i < j < |ids| ==> ids[i] != ids[j]
  {
    forall o: InnerBuilderOption
      ensures o in ids
    {
      match o
      case FinalSetters => assert ids[0] == o;
      case NewBuilderMethod => assert ids[2] == o;
      case CopyConstructor => assert ids[3] == o;
      case WithNotation => assert ids[4] == o;
      case SetNotation => assert ids[5] == o;
      case Jsr305Annotations => assert ids[6] == o;
      case FindbugsAnnotation => assert ids[7] == o;
      case WithJavadoc => assert ids[8] == o;
      case MakeFieldsFinal => assert ids[1] == o;
    }
  }

  /**
   * Every constant appears exactly once across the catalogue, counting toggles
   * and the non-null values of the choice map.
   */
  lemma CatalogueCoversEachOnce()
    ensures |Identities(Catalogue())| == |Values()|
    ensures forall o: InnerBuilderOption :: o in Identities(Catalogue())
    ensures forall i, j :: 0 <= i < j < |Identities(Catalogue())| ==>
      Identities(Catalogue())[i] != Identities(Catalogue())[j]
  {
    CatalogueIdentities();
    ListedOnce(Identities(Catalogue()));
  }

  // ---------------------------------------------------------------------------
  // Components: what each descriptor shows and which key it is bound to

  /**
   * The render-independent content of an option component. A check box shows
   * its caption, mnemonic, tool tip and state, bound to one key; a combo panel
   * shows its labels (the caption goes to a separate label, and the mnemonic is
   * never applied) and the selected label, bound to the whole option map.
   */
  datatype Component =
    | CheckBox(caption: Nullable<string>, mnemonic: char, toolTip: Nullable<string>,
               property: string, checked: bool)
    | ComboPanel(caption: Nullable<string>, toolTip: Nullable<string>, items: seq<string>,
                 optionMap: OptionMap, selectedItem: Nullable<string>)

  /** The component a buildable descriptor yields against the store contents `values`. */
  function ComponentFor(values: map<string, string>, d: OptionDescriptor): Component
    requires Buildable(d)
  {
    match d
    case SelectorOption(o, caption, mnemonic, toolTip) =>
      CheckBox(caption, mnemonic, toolTip, o.value.Property(), IsTrue(values, o.value.Property()))
    case MultiValueOption(m, caption, _, toolTip) =>
      ComboPanel(caption, toolTip, Keys(m.value), m.value, SeedLabel(values, m.value))
  }

  /** `buildOptionCheckBox`: the box is checked exactly when the option's key holds `"true"`. */
  method BuildOptionCheckBox(store: SettingsStore, d: OptionDescriptor) returns (c: Component)
    requires d.SelectorOption? && d.option.NonNull?
    ensures c.CheckBox? && c.property == d.option.value.Property()
    ensures c.caption == d.caption && c.mnemonic == d.mnemonic && c.toolTip == d.toolTip
    ensures c.checked <==> (d.option.value.Property() in store.values &&
                             IsTrueText(store.values[d.option.value.Property()]))
    ensures c == ComponentFor(store.values, d)
  {
    var optionProperty := d.option.value.Property();
    var selected := store.IsTrueValue(optionProperty);
    c := CheckBox(d.caption, d.mnemonic, d.toolTip, optionProperty, selected);
  }

  /**
   * `buildOptionComboBox`: the combo box starts on its first label and then the
   * entries are scanned in map order; the first one whose identity is
   * persisted true becomes the selection and ends the scan.
   */
  method BuildOptionComboBox(store: SettingsStore, d: OptionDescriptor) returns (c: Component)
    requires d.MultiValueOption? && d.optionMap.NonNull?
    ensures c.ComboPanel? && c.optionMap == d.optionMap.value && c.items == Keys(d.optionMap.value)
    ensures c.caption == d.caption && c.toolTip == d.toolTip
    ensures var m := d.optionMap.value;
      && (c.selectedItem.Null? <==> m == [])
      && (forall i :: (0 <= i < |m| && PersistedTrue(store.values, m[i]) &&
                       (forall j :: 0 <= j < i ==> !PersistedTrue(store.values, m[j]))) ==>
            c.selectedItem == NonNull(m[i].key))
      && ((forall i :: 0 <= i < |m| ==> !PersistedTrue(store.values, m[i])) && m != [] ==>
            c.selectedItem == NonNull(m[0].key))
    ensures c == ComponentFor(store.values, d)
  {
    var optionMap := d.optionMap.value;
    var selected: Nullable<string> := if |optionMap| > 0 then NonNull(optionMap[0].key) else Null;
    var i := 0;
    while i < |optionMap|
      invariant 0 <= i <= |optionMap|
      invariant forall j :: 0 <= j < i ==> !PersistedTrue(store.values, optionMap[j])
      invariant selected == if |optionMap| > 0 then NonNull(optionMap[0].key) else Null
    {
      var option := optionMap[i].value;
      if option.NonNull? {
        if store.IsTrueValue(option.value.Property()) {
          selected := NonNull(optionMap[i].key);
          break;
        }
      }
      i := i + 1;
    }
    assert i < |optionMap| ==> FirstTrue(store.values, optionMap) == i;
    assert i == |optionMap| ==> FirstTrue(store.values, optionMap) == |optionMap|;
    assert selected == SeedLabel(store.values, optionMap);
    SeedLabelSpec(store.values, optionMap);
    c := ComboPanel(d.caption, d.toolTip, Keys(optionMap), optionMap, selected);
  }

  /** `buildOptionComponent`: dispatch on the descriptor's variant. */
  method BuildOptionComponent(store: SettingsStore, d: OptionDescriptor) returns (c: Component)
    requires Buildable(d)
    ensures c == ComponentFor(store.values, d)
    ensures c.CheckBox? <==> d.SelectorOption?
  {
    if d.SelectorOption? {
      c := BuildOptionCheckBox(store, d);
    } else {
      c := BuildOptionComboBox(store, d);
    }
  }

  /** `buildOptionComponents`: one component per descriptor, in catalogue order. */
  method BuildOptionComponents(store: SettingsStore, options: seq<OptionDescriptor>) returns (components: array<Component>)
    requires forall i :: 0 <= i < |options| ==> Buildable(options[i])
    ensures fresh(components) && components.Length == |options|
    ensures forall i :: 0 <= i < |options| ==> components[i] == ComponentFor(store.values, options[i])
  {
    var optionCount := |options|;
    components := new Component[optionCount];
    for i := 0 to optionCount
      invariant forall k :: 0 <= k < i ==> components[k] == ComponentFor(store.values, options[k])
    {
      components[i] := BuildOptionComponent(store, options[i]);
    }
  }

  // ---------------------------------------------------------------------------
  // Write-through handlers

  /** The check box's item listener: the key takes the box's new state, nothing else changes. */
  method OnCheckBoxChanged(store: SettingsStore, optionProperty: string, isSelected: bool)
    modifies store
    ensures store.values == old(store.values)[optionProperty := BoolToString(isSelected)]
    ensures store.IsTrueValue(optionProperty) == isSelected
    ensures forall k :: k != optionProperty ==> store.IsTrueValue(k) == old(store.IsTrueValue(k))
  {
    store.SetValue(optionProperty, BoolToString(isSelected));
  }

  /**
   * The combo box's item listener: every entry with an identity, in map order,
   * writes whether its label is the selected item.
   */
  method OnComboChanged(store: SettingsStore, optionMap: OptionMap, selectedItem: Nullable<string>)
    modifies store
    ensures store.values == ComboWrite(old(store.values), optionMap, selectedItem)
  {
    var i := 0;
    while i < |optionMap|
      invariant 0 <= i <= |optionMap|
      invariant store.values == ComboWrite(old(store.values), optionMap[..i], selectedItem)
    {
      var key := optionMap[i].key;
      var option := optionMap[i].value;
      assert optionMap[..i + 1][..i] == optionMap[..i];
      if option.NonNull? {
        if NonNull(key) == selectedItem {
          store.SetValue(option.value.Property(), "true");
        } else {
          store.SetValue(option.value.Property(), "false");
        }
      }
      i := i + 1;
    }
    assert optionMap[..i] == optionMap;
  }

  // ---------------------------------------------------------------------------
  // Round trips: a rebuilt component shows what its handler just wrote

  /** After the check box's listener writes `isSelected`, a freshly built check box shows `isSelected`. */
  lemma CheckBoxRoundTrip(values: map<string, string>, d: OptionDescriptor, isSelected: bool)
    requires d.SelectorOption? && d.option.NonNull?
    ensures ComponentFor(values[d.option.value.Property() := BoolToString(isSelected)], d).checked == isSelected
  {
  }

  /**
   * After the combo box's listener writes label `m[i]` (one with an identity, or
   * the first label), a freshly built combo box selects that label again.
   */
  lemma ComboRoundTrip(values: map<string, string>, d: OptionDescriptor, i: nat)
    requires d.MultiValueOption? && d.optionMap.NonNull?
    requires DistinctKeys(d.optionMap.value) && DistinctIdentities(d.optionMap.value)
    requires i < |d.optionMap.value| && (d.optionMap.value[i].value.NonNull? || i == 0)
    ensures var m := d.optionMap.value;
      ComponentFor(ComboWrite(values, m, NonNull(m[i].key)), d).selectedItem == NonNull(m[i].key)
  {
    ReseedAfterSelect(values, d.optionMap.value, i);
  }

  // ---------------------------------------------------------------------------
  // The prefix choice stays exclusive

  /** The prefix map has distinct labels and distinct identities. */
  lemma PrefixMapWellFormed()
    ensures DistinctKeys(PrefixMap()) && DistinctIdentities(PrefixMap())
  {
    CatalogueShape();
  }

  /** Every toggle of the catalogue is bound to an option outside the prefix choice. */
  lemma TogglesOutsidePrefix(i: nat)
    requires i < |Catalogue()| && i != 4
    ensures Catalogue()[i].SelectorOption? && Catalogue()[i].option.NonNull?
    ensures Catalogue()[i].option.value != WithNotation && Catalogue()[i].option.value != SetNotation
  {
    CatalogueShape();
  }

  /** A change of the prefix combo box leaves at most one prefix identity persisted true. */
  lemma ComboChangeMakesPrefixExclusive(values: map<string, string>, selectedItem: Nullable<string>)
    ensures AtMostOneTrue(ComboWrite(values, PrefixMap(), selectedItem), PrefixMap())
  {
    PrefixMapWellFormed();
    ComboWriteExclusive(values, PrefixMap(), selectedItem);
  }

  /** A change of any toggle's check box preserves the exclusivity of the prefix choice. */
  lemma CheckBoxChangeKeepsPrefixExclusive(values: map<string, string>, i: nat, isSelected: bool)
    requires i < |Catalogue()| && i != 4
    requires AtMostOneTrue(values, PrefixMap())
    ensures AtMostOneTrue(values[Catalogue()[i].option.value.Property() := BoolToString(isSelected)], PrefixMap())
  {
    TogglesOutsidePrefix(i);
    var o := Catalogue()[i].option.value;
    PropertyInjective(o, WithNotation);
    PropertyInjective(o, SetNotation);
    var r := values[o.Property() := BoolToString(isSelected)];
    var m := PrefixMap();
    forall j | 0 <= j < |m| && PersistedTrue(r, m[j])
      ensures PersistedTrue(values, m[j])
    {
      CatalogueShape();
    }
  }

  /**
   * The prefix choice end to end: an empty store seeds "None"; choosing "'with'"
   * stores the with-notation key as true and the set-notation key as false, and
   * the combo box rebuilt afterwards selects "'with'".
   */
  lemma PrefixScenario()
    ensures SeedLabel(map[], PrefixMap()) == NonNull("None")
    ensures var r := ComboWrite(map[], PrefixMap(), NonNull("'with'"));
      && IsTrue(r, WithNotation.Property())
      && SetNotation.Property() in r && r[SetNotation.Property()] == "false"
      && SeedLabel(r, PrefixMap()) == NonNull("'with'")
  {
    CatalogueShape();
    PrefixMapWellFormed();
    var m := PrefixMap();
    assert FirstTrue(map[], m) == |m|;
    ChosenIdentityTrue(map[], m, 1);
    OtherIdentitiesFalse(map[], m, NonNull("'with'"), 2);
    ReseedAfterSelect(map[], m, 1);
  }

  // ---------------------------------------------------------------------------
  // The selection session

  /** What the member chooser dialog returns: cancelled, or confirmed with the indices the user unticked. */
  datatype ChooserOutcome = Cancelled | Confirmed(deselected: set<nat>)

  /** The indices below `n` that were not unticked, in increasing order. */
  function KeptIndices(deselected: set<nat>, n: nat): (r: seq<nat>)
    ensures |r| <= n
    ensures forall k :: 0 <= k < |r| ==> r[k] < n && r[k] !in deselected
    ensures forall k, l :: 0 <= k < l < |r| ==> r[k] < r[l]
    ensures forall i :: 0 <= i < n && i !in deselected ==> i in r
  {
    if n == 0 then []
    else KeptIndices(deselected, n - 1) + (if n - 1 in deselected then [] else [n - 1])
  }

  /** The first `n` members, in their order, whose index was not unticked. */
  function KeptBelow<M>(members: seq<M>, deselected: set<nat>, n: nat): (r: seq<M>)
    requires n <= |members|
    ensures |r| == |KeptIndices(deselected, n)|
    ensures forall k :: 0 <= k < |r| ==> r[k] == members[KeptIndices(deselected, n)[k]]
    ensures deselected == {} ==> r == members[..n]
  {
    if n == 0 then []
    else
      var front := KeptBelow(members, deselected, n - 1);
      assert members[..n] == members[..n - 1] + [members[n - 1]];
      front + (if n - 1 in deselected then [] else [members[n - 1]])
  }

  /** A list picked out by the kept indices holds exactly the members at indices not unticked. */
  lemma SelectionByIndices<M>(members: seq<M>, deselected: set<nat>, r: seq<M>)
    requires |r| == |KeptIndices(deselected, |members|)|
    requires forall k :: 0 <= k < |r| ==> r[k] == members[KeptIndices(deselected, |members|)[k]]
    ensures forall x :: x in r ==> exists i :: 0 <= i < |members| && i !in deselected && members[i] == x
    ensures forall i :: 0 <= i < |members| && i !in deselected ==> members[i] in r
    ensures r == [] <==> forall i :: 0 <= i < |members| ==> i in deselected
  {
    var ks := KeptIndices(deselected, |members|);
    forall x | x in r
      ensures exists i :: 0 <= i < |members| && i !in deselected && members[i] == x
    {
      var k :| 0 <= k < |r| && r[k] == x;
      assert members[ks[k]] == x;
    }
    forall i | 0 <= i < |members| && i !in deselected
      ensures members[i] in r
    {
      var k :| 0 <= k < |ks| && ks[k] == i;
      assert r[k] == members[i];
    }
    if |ks| > 0 {
      assert ks[0] < |members| && ks[0] !in deselected;
    }
  }

  /**
   * The members, in their order, whose index was not unticked: element `k` is
   * the member at the `k`-th index not unticked.
   */
  function Kept<M>(members: seq<M>, deselected: set<nat>): (r: seq<M>)
    ensures |r| == |KeptIndices(deselected, |members|)|
    ensures forall k :: 0 <= k < |r| ==> r[k] == members[KeptIndices(deselected, |members|)[k]]
    ensures forall x :: x in r ==> exists i :: 0 <= i < |members| && i !in deselected && members[i] == x
    ensures forall i :: 0 <= i < |members| && i !in deselected ==> members[i] in r
    ensures r == [] <==> forall i :: 0 <= i < |members| ==> i in deselected
    ensures deselected == {} ==> r == members
  {
    assert members[..|members|] == members;
    var r := KeptBelow(members, deselected, |members|);
    SelectionByIndices(members, deselected, r);
    r
  }

  /** Unticking the second of two members keeps exactly the first. */
  lemma KeepFirstOfTwo<M>(a: M, b: M)
    ensures Kept([a, b], {1}) == [a]
  {
    var ks := KeptIndices({1}, 2);
    assert 0 in ks;
    assert 1 !in ks;
    assert |ks| == 1 && ks[0] == 0;
  }

  /**
   * The outcome of a session: no members (null or empty) yields null; unit-test
   * mode the members unchanged; otherwise a cancelled dialog yields null and a
   * confirmed one the members still selected. The chooser does not allow
   * confirming an empty selection, which is modelled as null.
   */
  function SessionResult<M>(members: Nullable<seq<M>>, unitTestMode: bool, outcome: ChooserOutcome): (r: Nullable<seq<M>>)
    ensures members.Null? || members.value == [] ==> r.Null?
    ensures members.NonNull? && members.value != [] && unitTestMode ==> r == members
    ensures members.NonNull? && members.value != [] && !unitTestMode && outcome.Cancelled? ==> r.Null?
    ensures members.NonNull? && members.value != [] && !unitTestMode && outcome.Confirmed? ==>
      r == if Kept(members.value, outcome.deselected) == [] then Null else NonNull(Kept(members.value, outcome.deselected))
    ensures r.NonNull? ==> members.NonNull? && r.value != [] && forall x :: x in r.value ==> x in members.value
  {
    if members.Null? || members.value == [] then Null
    else if unitTestMode then members
    else if outcome.Confirmed? && Kept(members.value, outcome.deselected) != [] then
      NonNull(Kept(members.value, outcome.deselected))
    else Null
  }

  /** Two candidates: unticking the second and confirming yields the first; unticking both yields null. */
  lemma SessionScenario<M>(a: M, b: M)
    ensures SessionResult(NonNull([a, b]), false, Confirmed({1})) == NonNull([a])
    ensures SessionResult(NonNull([a, b]), false, Confirmed({0, 1})) == Null
    ensures SessionResult(NonNull([a, b]), false, Cancelled) == Null
  {
    KeepFirstOfTwo(a, b);
  }

  /**
   * One run of a component's listener while the dialog is open: the item
   * listener of check box number `component` seeing state `isSelected`, or the
   * item listener of combo box number `component` seeing item number `item`
   * selected. Swing runs no listener when a pick leaves the state as it was,
   * so such a pick is no edit.
   */
  datatype OptionEdit = CheckBoxEdit(component: nat, isSelected: bool) | ComboEdit(component: nat, item: nat)

  /**
   * The store after the listener of the edited component ran. An edit that names
   * no component of its kind (which the dialog cannot produce) changes nothing.
   */
  function ApplyEdit(values: map<string, string>, options: seq<OptionDescriptor>, e: OptionEdit): map<string, string>
  {
    match e
    case CheckBoxEdit(i, isSelected) =>
      if i < |options| && options[i].SelectorOption? && options[i].option.NonNull? then
        values[options[i].option.value.Property() := BoolToString(isSelected)]
      else values
    case ComboEdit(i, item) =>
      if i < |options| && options[i].MultiValueOption? && options[i].optionMap.NonNull? &&
         item < |options[i].optionMap.value|
      then ComboWrite(values, options[i].optionMap.value, NonNull(options[i].optionMap.value[item].key))
      else values
  }

  /** The store after the edits, in order. */
  function ApplyEdits(values: map<string, string>, options: seq<OptionDescriptor>, edits: seq<OptionEdit>): map<string, string>
  {
    if edits == [] then values
    else ApplyEdit(ApplyEdits(values, options, edits[..|edits| - 1]), options, edits[|edits| - 1])
  }

  /** No single edit of a catalogue component can break the exclusivity of the prefix choice. */
  lemma EditKeepsPrefixExclusive(values: map<string, string>, e: OptionEdit)
    requires AtMostOneTrue(values, PrefixMap())
    ensures AtMostOneTrue(ApplyEdit(values, Catalogue(), e), PrefixMap())
  {
    CatalogueShape();
    match e
    case CheckBoxEdit(i, isSelected) =>
      if i < |Catalogue()| && Catalogue()[i].SelectorOption? && Catalogue()[i].option.NonNull? {
        CheckBoxChangeKeepsPrefixExclusive(values, i, isSelected);
      }
    case ComboEdit(i, item) =>
      if i < |Catalogue()| && Catalogue()[i].MultiValueOption? && Catalogue()[i].optionMap.NonNull? &&
         item < |Catalogue()[i].optionMap.value| {
        ComboChangeMakesPrefixExclusive(values, NonNull(PrefixMap()[item].key));
      }
  }

  /** However many edits a session takes, the prefix choice stays exclusive. */
  lemma {:induction false} EditsKeepPrefixExclusive(values: map<string, string>, edits: seq<OptionEdit>)
    requires AtMostOneTrue(values, PrefixMap())
    ensures AtMostOneTrue(ApplyEdits(values, Catalogue(), edits), PrefixMap())
  {
    if edits != [] {
      var n := |edits| - 1;
      EditsKeepPrefixExclusive(values, edits[..n]);
      EditKeepsPrefixExclusive(ApplyEdits(values, Catalogue(), edits[..n]), edits[n]);
    }
  }

  /**
   * The dialog's event loop as far as the options go: each edit runs the
   * listener of the component it names.
   */
  method RunOptionEdits(store: SettingsStore, options: seq<OptionDescriptor>, components: array<Component>,
                        edits: seq<OptionEdit>)
    requires forall i :: 0 <= i < |options| ==> Buildable(options[i])
    requires components.Length == |options|
    requires forall i :: 0 <= i < |options| ==> components[i] == ComponentFor(store.values, options[i])
    modifies store
    ensures store.values == ApplyEdits(old(store.values), options, edits)
  {
    var k := 0;
    while k < |edits|
      invariant 0 <= k <= |edits|
      invariant store.values == ApplyEdits(old(store.values), options, edits[..k])
    {
      assert edits[..k + 1][..k] == edits[..k];
      match edits[k] {
        case CheckBoxEdit(i, isSelected) =>
          if i < components.Length && components[i].CheckBox? {
            OnCheckBoxChanged(store, components[i].property, isSelected);
          }
        case ComboEdit(i, item) =>
          if i < components.Length && components[i].ComboPanel? && item < |components[i].items| {
            OnComboChanged(store, components[i].optionMap, NonNull(components[i].items[item]));
          }
      }
      k := k + 1;
    }
    assert edits[..k] == edits;
  }

  /**
   * `selectFieldsAndOptions`: no members (null or empty) yields null and unit-test
   * mode returns the members unchanged, both without touching the store.
   * Otherwise the option components are built from the catalogue, the user's
   * option edits run through the components' listeners while the dialog is
   * open, and the dialog's outcome decides the result.
   */
  method SelectFieldsAndOptions<M>(members: Nullable<seq<M>>, unitTestMode: bool, store: SettingsStore,
                                   edits: seq<OptionEdit>, outcome: ChooserOutcome)
    returns (r: Nullable<seq<M>>)
    modifies store
    ensures r == SessionResult(members, unitTestMode, outcome)
    ensures members.Null? || members.value == [] || unitTestMode ==> store.values == old(store.values)
    ensures members.NonNull? && members.value != [] && !unitTestMode ==>
      store.values == ApplyEdits(old(store.values), Catalogue(), edits)
    ensures AtMostOneTrue(old(store.values), PrefixMap()) ==> AtMostOneTrue(store.values, PrefixMap())
  {
    if members.Null? || members.value == [] {
      return Null;
    }
    if unitTestMode {
      return members;
    }
    var options := CreateGeneratorOptions();
    CatalogueShape();
    var optionComponents := BuildOptionComponents(store, options);
    RunOptionEdits(store, options, optionComponents, edits);
    if AtMostOneTrue(old(store.values), PrefixMap()) {
      EditsKeepPrefixExclusive(old(store.values), edits);
    }
    if outcome.Confirmed? {
      var selected := Kept(members.value, outcome.deselected);
      if selected != [] {
        return NonNull(selected);
      }
    }
    return Null;
  }
}
