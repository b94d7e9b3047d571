# innerbuilder option model

A Dafny model of the option layer of the innerbuilder IntelliJ plugin, which
generates an inner `Builder` class for a Java class. Before generating, the
plugin shows a dialog. There the user picks the fields to include and sets a
few generator options: seven check boxes and one prefix combo box. Each option
is written through to IntelliJ's settings store as soon as it changes. The
model covers:

- **Option identities** (`InnerBuilderOptions`). The nine enum constants of
  `InnerBuilderOption`, each bound to the storage key
  `GenerateInnerBuilder.<suffix>`. The suffix of `SET_NOTATION` is
  `setNotatinon`, as shipped. Keys are proved injective, and the key function
  is proved equal to the `String.format` call that builds it.
- **Ordered maps** (`LinkedMaps`). `LinkedHashMap` as a value: a sequence of
  entries. `Put` replaces an existing key in place and appends a new one.
- **Option descriptors** (`Descriptors`, `SelectorOptions`,
  `MultiValueOptions`). The immutable `SelectorOption` and `MultiValueOption`
  are one sum type. Each has its own mutable fluent `Builder` class with real
  fields. A ghost history of `with*` calls records how a builder got its
  state. `Replay` gives the history's meaning: the last call to a field wins,
  a field never set keeps its Java default (`null`, or `'\0'` for the
  mnemonic), and calls to different fields commute.
- **Settings store** (`SettingsStores`). `PropertiesComponent` as a class
  holding a `map<string, string>`, with `isTrueValue` and `setValue`.
- **Choice groups** (`ChoiceGroups`):
  - how a combo box chooses its initial label: the first identity, in map
    order, persisted true; otherwise the first label;
  - the write-through fold its listener performs;
  - the proved properties of that fold: when no identity appears under two
    labels, as in the prefix map (`PrefixMapWellFormed`), the chosen identity
    becomes true and every other identity false; other keys are untouched, running it twice
    changes nothing, at most one identity is left true, and a combo box
    rebuilt afterwards selects the chosen label again, provided that label
    has an identity or is the first label.
- **The selector** (`OptionSelector`):
  - `createGeneratorOptions`: one method per builder chain, proved equal to
    the eight-entry catalogue;
  - proofs about the catalogue:
    - its shape;
    - it names every identity exactly once;
    - every toggle is bound to an option outside the prefix choice;
  - `buildOptionComponents` and its dispatch;
  - the check box and combo box seeds;
  - both item listeners;
  - `selectFieldsAndOptions`, including its two short-circuits, the option
    edits made while the dialog is open, and the members the dialog returns;
  - the invariant that the prefix choice stays exclusive under every listener.

Java `null` is `Wrappers.Nullable`. Swing components are modelled as the
value `OptionSelector.Component`. The component holds what the widget
displays and the key or map its listener writes, not the widget itself.

Two behaviours of the source worth knowing:

- When no identity is persisted true, the combo box stays on its first item,
  whatever that label is. For the prefix map the first label is "None"
  (`OptionSelector.PrefixScenario`).
- `isTrueValue` goes through `Boolean.valueOf`, so any capitalisation of
  `true` reads as true, not only the literal `"true"`
  (`SettingsStores.IsTrueText`).

## Model

| member | source | states |
|---|---|---|
| InnerBuilderOptions.InnerBuilderOption.Ordinal | src/main/java/org/jetbrains/plugins/innerbuilder/InnerBuilderOption.java:5-13 | each constant's declaration index, below nine |
| InnerBuilderOptions.Values | src/main/java/org/jetbrains/plugins/innerbuilder/InnerBuilderOption.java:5-13 | `values()`: nine pairwise distinct constants, each at its declaration index |
| InnerBuilderOptions.ValuesComplete | src/main/java/org/jetbrains/plugins/innerbuilder/InnerBuilderOption.java:3-13 | every constant occurs in `values()`, at its ordinal |
| InnerBuilderOptions.FormatPlainPrefix | src/main/java/org/jetbrains/plugins/innerbuilder/InnerBuilderOption.java:18 | formatting a template with no `%` before its one final `%s` appends the argument to the prefix |
| InnerBuilderOptions.PropertyIsFormatted | src/main/java/org/jetbrains/plugins/innerbuilder/InnerBuilderOption.java:17-23 | each key equals `String.format("GenerateInnerBuilder.%s", suffix)` and starts with the namespace prefix |
| InnerBuilderOptions.FromSuffix | src/main/java/org/jetbrains/plugins/innerbuilder/InnerBuilderOption.java:5-13 | for every suffix in use, returns the constant declared with it |
| InnerBuilderOptions.SuffixInjective | src/main/java/org/jetbrains/plugins/innerbuilder/InnerBuilderOption.java:5-13 | two constants with the same suffix are the same constant |
| InnerBuilderOptions.PropertyInjective | src/main/java/org/jetbrains/plugins/innerbuilder/InnerBuilderOption.java:17-23 | two constants with the same storage key are the same constant |
| InnerBuilderOptions.ValuesHaveDistinctProperties | src/main/java/org/jetbrains/plugins/innerbuilder/InnerBuilderOption.java:3-23 | no two constants share a storage key |
| InnerBuilderOptions.SetNotationProperty | src/main/java/org/jetbrains/plugins/innerbuilder/InnerBuilderOption.java:9 | the set-notation key is `GenerateInnerBuilder.setNotatinon`, misspelling included |
| LinkedMaps.Keys | src/main/java/org/jetbrains/plugins/innerbuilder/InnerBuilderOptionSelector.java:173 | `keySet()`: the entry keys, one per entry, in iteration order |
| LinkedMaps.Put | src/main/java/org/jetbrains/plugins/innerbuilder/InnerBuilderOptionSelector.java:29-32 | `put`: a present key keeps its position and takes the new value; an absent key is appended; other entries are untouched; keys stay distinct |
| LinkedMaps.PutThenGet | src/main/java/org/jetbrains/plugins/innerbuilder/InnerBuilderOptionSelector.java:29-32 | after `put(k, v)` the key is present and every entry with key `k` holds `v` |
| Descriptors.StepAssignsOnlyItsField | src/main/java/org/jetbrains/plugins/innerbuilder/SelectorOption.java:47-65 | a `with*` call sets its own field to its argument and leaves every other field as it was |
| Descriptors.ReplayLastCallWins | src/main/java/org/jetbrains/plugins/innerbuilder/SelectorOption.java:47-65 | after any call sequence, a field holds the argument of the last call to it |
| Descriptors.ReplayUncalledFieldIsDefault | src/main/java/org/jetbrains/plugins/innerbuilder/SelectorOption.java:40-45 | a field no call touched keeps its Java default |
| Descriptors.ReplaySwap | src/main/java/org/jetbrains/plugins/innerbuilder/MultiValueOption.java:50-68 | swapping two adjacent calls to different fields does not change the result, so chain order matters only per field |
| SelectorOptions.Builder.constructor | src/main/java/org/jetbrains/plugins/innerbuilder/SelectorOption.java:35-45 | `newBuilder()`: every field at its Java default, empty history |
| SelectorOptions.Builder.WithOption | src/main/java/org/jetbrains/plugins/innerbuilder/SelectorOption.java:47-50 | sets the option, keeps the other fields, returns the same builder, records the call |
| SelectorOptions.Builder.WithCaption | src/main/java/org/jetbrains/plugins/innerbuilder/SelectorOption.java:52-55 | sets the caption, keeps the other fields, returns the same builder, records the call |
| SelectorOptions.Builder.WithMnemonic | src/main/java/org/jetbrains/plugins/innerbuilder/SelectorOption.java:57-60 | sets the mnemonic, keeps the other fields, returns the same builder, records the call |
| SelectorOptions.Builder.WithToolTip | src/main/java/org/jetbrains/plugins/innerbuilder/SelectorOption.java:62-65 | sets the tool tip, keeps the other fields, returns the same builder, records the call |
| SelectorOptions.Builder.Build | src/main/java/org/jetbrains/plugins/innerbuilder/SelectorOption.java:9-14 | a toggle descriptor whose fields are the builder's, which are the values the recorded calls leave |
| MultiValueOptions.Builder.constructor | src/main/java/org/jetbrains/plugins/innerbuilder/MultiValueOption.java:37-48 | `newBuilder()`: every field at its Java default, empty history |
| MultiValueOptions.Builder.WithOptionMap | src/main/java/org/jetbrains/plugins/innerbuilder/MultiValueOption.java:50-53 | sets the option map, keeps the other fields, returns the same builder, records the call |
| MultiValueOptions.Builder.WithCaption | src/main/java/org/jetbrains/plugins/innerbuilder/MultiValueOption.java:55-58 | sets the caption, keeps the other fields, returns the same builder, records the call |
| MultiValueOptions.Builder.WithMnemonic | src/main/java/org/jetbrains/plugins/innerbuilder/MultiValueOption.java:60-63 | sets the mnemonic, keeps the other fields, returns the same builder, records the call |
| MultiValueOptions.Builder.WithToolTip | src/main/java/org/jetbrains/plugins/innerbuilder/MultiValueOption.java:65-68 | sets the tool tip, keeps the other fields, returns the same builder, records the call |
| MultiValueOptions.Builder.Build | src/main/java/org/jetbrains/plugins/innerbuilder/MultiValueOption.java:11-16 | a choice descriptor whose fields are the builder's, which are the values the recorded calls leave |
| SettingsStores.BoolToString | src/main/java/org/jetbrains/plugins/innerbuilder/InnerBuilderOptionSelector.java:162 | `Boolean.toString` yields `"true"` or `"false"` |
| SettingsStores.WriteThenRead | src/main/java/org/jetbrains/plugins/innerbuilder/InnerBuilderOptionSelector.java:158-163 | a boolean written with `Boolean.toString` reads back through `isTrueValue`; other keys read as before |
| SettingsStores.SettingsStore.constructor | src/main/java/org/jetbrains/plugins/innerbuilder/InnerBuilderOptionSelector.java:128 | the store holds the given contents |
| SettingsStores.SettingsStore.SetValue | src/main/java/org/jetbrains/plugins/innerbuilder/InnerBuilderOptionSelector.java:162 | `setValue` overwrites or creates exactly the one key |
| ChoiceGroups.FirstTrue | src/main/java/org/jetbrains/plugins/innerbuilder/InnerBuilderOptionSelector.java:180-188 | the index the seed scan stops at: the first entry with a persisted-true identity, and no earlier one is true; `|m|` if none |
| ChoiceGroups.SeedLabelSpec | src/main/java/org/jetbrains/plugins/innerbuilder/InnerBuilderOptionSelector.java:173-188 | the initial label: nothing for an empty map, the first label persisted true when there is one, otherwise the first label |
| ChoiceGroups.LastWriterBelow | src/main/java/org/jetbrains/plugins/innerbuilder/InnerBuilderOptionSelector.java:193-203 | the last entry among the first `n` that writes a given key, or none |
| ChoiceGroups.LastWriter | src/main/java/org/jetbrains/plugins/innerbuilder/InnerBuilderOptionSelector.java:193-203 | the last entry in map order that writes a given key, or none |
| ChoiceGroups.ComboWriteAt | src/main/java/org/jetbrains/plugins/innerbuilder/InnerBuilderOptionSelector.java:193-203 | after the combo listener, a key holds whether its last writer's label is the selected item; a key nobody writes keeps its value |
| ChoiceGroups.ComboWritePrefixAt | src/main/java/org/jetbrains/plugins/innerbuilder/InnerBuilderOptionSelector.java:193-203 | the same per-key result after the listener has processed only the first `n` entries |
| ChoiceGroups.ComboWriteFrame | src/main/java/org/jetbrains/plugins/innerbuilder/InnerBuilderOptionSelector.java:193-203 | keys outside the group are neither created nor changed |
| ChoiceGroups.LastWriterOfIdentity | src/main/java/org/jetbrains/plugins/innerbuilder/InnerBuilderOptionSelector.java:193-203 | with distinct identities, an entry's identity key is written last by that entry |
| ChoiceGroups.ComboWriteReads | src/main/java/org/jetbrains/plugins/innerbuilder/InnerBuilderOptionSelector.java:193-203 | when no identity appears under two labels, as in the prefix map (`PrefixMapWellFormed`), afterwards an entry's identity reads true exactly when its label is the selected item, and its key is present |
| ChoiceGroups.ChosenIdentityTrue | src/main/java/org/jetbrains/plugins/innerbuilder/InnerBuilderOptionSelector.java:197-198 | when no identity appears under two labels, as in the prefix map (`PrefixMapWellFormed`), selecting a label stores that label's identity as true |
| ChoiceGroups.OtherIdentitiesFalse | src/main/java/org/jetbrains/plugins/innerbuilder/InnerBuilderOptionSelector.java:199-200 | when no identity appears under two labels, as in the prefix map (`PrefixMapWellFormed`), every identity whose label was not selected is stored as `"false"` |
| ChoiceGroups.ComboWriteIdempotent | src/main/java/org/jetbrains/plugins/innerbuilder/InnerBuilderOptionSelector.java:190-205 | running the listener twice for the same selection leaves the store as one run does |
| ChoiceGroups.ComboWriteExclusive | src/main/java/org/jetbrains/plugins/innerbuilder/InnerBuilderOptionSelector.java:190-205 | with distinct labels, at most one identity of the group is true afterwards |
| ChoiceGroups.ReseedAfterSelect | src/main/java/org/jetbrains/plugins/innerbuilder/InnerBuilderOptionSelector.java:180-205 | after selecting a label with an identity (or the first label), the seed scan selects that same label |
| OptionSelector.CreatePrefixMap | src/main/java/org/jetbrains/plugins/innerbuilder/InnerBuilderOptionSelector.java:29-32 | the three `put` calls give None to null, 'with' to WITH_NOTATION, 'set' to SET_NOTATION, in that order |
| OptionSelector.CreateFinalSettersOption | src/main/java/org/jetbrains/plugins/innerbuilder/InnerBuilderOptionSelector.java:34-39 | the chain builds the final-setters toggle: its caption, mnemonic 'f', no tool tip |
| OptionSelector.CreateMakeFieldsFinalOption | src/main/java/org/jetbrains/plugins/innerbuilder/InnerBuilderOptionSelector.java:40-45 | the chain builds the make-fields-final toggle |
| OptionSelector.CreateNewBuilderMethodOption | src/main/java/org/jetbrains/plugins/innerbuilder/InnerBuilderOptionSelector.java:46-51 | the chain, with the option set first, builds the static-factory toggle |
| OptionSelector.CreateCopyConstructorOption | src/main/java/org/jetbrains/plugins/innerbuilder/InnerBuilderOptionSelector.java:52-57 | the chain builds the copy-constructor toggle |
| OptionSelector.CreatePrefixOption | src/main/java/org/jetbrains/plugins/innerbuilder/InnerBuilderOptionSelector.java:58-66 | the chain builds the prefix choice over the prefix map, with its caption, mnemonic and tool tip |
| OptionSelector.CreateJsr305Option | src/main/java/org/jetbrains/plugins/innerbuilder/InnerBuilderOptionSelector.java:67-75 | the chain builds the JSR-305 annotation toggle |
| OptionSelector.CreateFindbugsOption | src/main/java/org/jetbrains/plugins/innerbuilder/InnerBuilderOptionSelector.java:76-84 | the chain builds the Findbugs annotation toggle |
| OptionSelector.CreateJavadocOption | src/main/java/org/jetbrains/plugins/innerbuilder/InnerBuilderOptionSelector.java:85-91 | the chain builds the Javadoc toggle |
| OptionSelector.CreateGeneratorOptions | src/main/java/org/jetbrains/plugins/innerbuilder/InnerBuilderOptionSelector.java:27-93 | `createGeneratorOptions` returns exactly the eight descriptors of the catalogue, in presentation order |
| OptionSelector.CatalogueShape | src/main/java/org/jetbrains/plugins/innerbuilder/InnerBuilderOptionSelector.java:27-93 | eight descriptors; only the fifth is a choice, over the prefix map with labels None, 'with', 'set'; every descriptor has a non-null option or map |
| OptionSelector.IdentitiesOfCatalogueShape | src/main/java/org/jetbrains/plugins/innerbuilder/InnerBuilderOptionSelector.java:27-93 | a list laid out like the catalogue names exactly its nine identities, in order |
| OptionSelector.CatalogueIdentities | src/main/java/org/jetbrains/plugins/innerbuilder/InnerBuilderOptionSelector.java:27-93 | the catalogue names FINAL_SETTERS, MAKE_FIELDS_FINAL, NEW_BUILDER_METHOD, COPY_CONSTRUCTOR, WITH_NOTATION, SET_NOTATION, JSR305, FINDBUGS, WITH_JAVADOC |
| OptionSelector.ListedOnce | src/main/java/org/jetbrains/plugins/innerbuilder/InnerBuilderOption.java:3-13 | that order of the nine constants lists each constant once |
| OptionSelector.CatalogueCoversEachOnce | src/main/java/org/jetbrains/plugins/innerbuilder/InnerBuilderOptionSelector.java:27-93 | every identity in the enum is offered by the catalogue exactly once |
| OptionSelector.BuildOptionCheckBox | src/main/java/org/jetbrains/plugins/innerbuilder/InnerBuilderOptionSelector.java:149-166 | the check box shows the descriptor's caption, mnemonic and tool tip, is bound to its option's key, and is checked exactly when the store holds that key as true |
| OptionSelector.BuildOptionComboBox | src/main/java/org/jetbrains/plugins/innerbuilder/InnerBuilderOptionSelector.java:168-188 | the combo box lists the map's labels in order; it selects the first label whose identity is persisted true, else the first label, and nothing for an empty map |
| OptionSelector.BuildOptionComponent | src/main/java/org/jetbrains/plugins/innerbuilder/InnerBuilderOptionSelector.java:138-147 | a toggle becomes a check box and a choice a combo box, each as the builders above state |
| OptionSelector.BuildOptionComponents | src/main/java/org/jetbrains/plugins/innerbuilder/InnerBuilderOptionSelector.java:127-136 | a new array with one component per descriptor, in catalogue order |
| OptionSelector.OnCheckBoxChanged | src/main/java/org/jetbrains/plugins/innerbuilder/InnerBuilderOptionSelector.java:159-164 | the listener stores the box's new state under its key; that key reads back as the new state and every other key is unchanged |
| OptionSelector.OnComboChanged | src/main/java/org/jetbrains/plugins/innerbuilder/InnerBuilderOptionSelector.java:190-205 | the listener's loop performs exactly the group write-through fold |
| OptionSelector.CheckBoxRoundTrip | src/main/java/org/jetbrains/plugins/innerbuilder/InnerBuilderOptionSelector.java:157-163 | a check box rebuilt after its listener wrote a state shows that state |
| OptionSelector.ComboRoundTrip | src/main/java/org/jetbrains/plugins/innerbuilder/InnerBuilderOptionSelector.java:180-205 | a combo box rebuilt after its listener wrote a label selects that label, for a label with an identity, or the first label |
| OptionSelector.PrefixMapWellFormed | src/main/java/org/jetbrains/plugins/innerbuilder/InnerBuilderOptionSelector.java:29-32 | the prefix map has distinct labels and distinct identities |
| OptionSelector.TogglesOutsidePrefix | src/main/java/org/jetbrains/plugins/innerbuilder/InnerBuilderOptionSelector.java:34-91 | every descriptor except the fifth is a toggle whose option is neither WITH_NOTATION nor SET_NOTATION |
| OptionSelector.ComboChangeMakesPrefixExclusive | src/main/java/org/jetbrains/plugins/innerbuilder/InnerBuilderOptionSelector.java:190-205 | after any prefix combo change, at most one prefix identity is true |
| OptionSelector.CheckBoxChangeKeepsPrefixExclusive | src/main/java/org/jetbrains/plugins/innerbuilder/InnerBuilderOptionSelector.java:159-164 | no check box change can break the exclusivity of the prefix choice |
| OptionSelector.PrefixScenario | src/main/java/org/jetbrains/plugins/innerbuilder/InnerBuilderOptionSelector.java:29-32 | an empty store seeds "None"; choosing 'with' stores WITH_NOTATION true and SET_NOTATION false; the next session seeds 'with' |
| OptionSelector.KeptIndices | src/main/java/org/jetbrains/plugins/innerbuilder/InnerBuilderOptionSelector.java:119-121 | the indices below `n` not unticked: strictly increasing, each below `n` and not unticked, and every such index present |
| OptionSelector.KeptBelow | src/main/java/org/jetbrains/plugins/innerbuilder/InnerBuilderOptionSelector.java:119-121 | among the first `n` members, element `k` is the member at the `k`-th index not unticked, and as many as there are such indices; all of them when none is unticked |
| OptionSelector.SelectionByIndices | src/main/java/org/jetbrains/plugins/innerbuilder/InnerBuilderOptionSelector.java:119-121 | a list picked out by the kept indices holds every member whose index is not unticked, only such members, and is empty exactly when every index is unticked |
| OptionSelector.Kept | src/main/java/org/jetbrains/plugins/innerbuilder/InnerBuilderOptionSelector.java:119-121 | the selection the chooser returns: element `k` is the member at the `k`-th index not unticked, in member order; an unticked member is dropped; empty exactly when all are unticked; all members when none is |
| OptionSelector.KeepFirstOfTwo | src/main/java/org/jetbrains/plugins/innerbuilder/InnerBuilderOptionSelector.java:119-121 | of two members, unticking the second keeps exactly the first |
| OptionSelector.SessionResult | src/main/java/org/jetbrains/plugins/innerbuilder/InnerBuilderOptionSelector.java:99-125 | null or empty members give null; unit-test mode gives the members unchanged; a cancelled dialog gives null; a confirmed one gives the kept members, or null if none is kept; a non-null result is a non-empty subset of the members |
| OptionSelector.SessionScenario | src/main/java/org/jetbrains/plugins/innerbuilder/InnerBuilderOptionSelector.java:99-125 | with two candidates, unticking the second and confirming gives the first; unticking both, or cancelling, gives null |
| OptionSelector.EditKeepsPrefixExclusive | src/main/java/org/jetbrains/plugins/innerbuilder/InnerBuilderOptionSelector.java:159-164 | no single check box or combo box edit on a catalogue component breaks the exclusivity of the prefix choice |
| OptionSelector.EditsKeepPrefixExclusive | src/main/java/org/jetbrains/plugins/innerbuilder/InnerBuilderOptionSelector.java:190-205 | any sequence of such edits keeps the prefix choice exclusive |
| OptionSelector.RunOptionEdits | src/main/java/org/jetbrains/plugins/innerbuilder/InnerBuilderOptionSelector.java:159-164 | each edit runs the listener of the component it names, so the store ends as the edits applied in order |
| OptionSelector.SelectFieldsAndOptions | src/main/java/org/jetbrains/plugins/innerbuilder/InnerBuilderOptionSelector.java:99-125 | the result is the session result above; the short-circuits leave the store untouched; otherwise the store ends as the option edits made in the dialog leave it, on the catalogue that `createGeneratorOptions` builds, and the prefix choice stays exclusive across the session |

## Left out

- Swing rendering is not modelled: widget construction, `FlowLayout`, `JLabel` placement, `NonFocusableCheckBox` focus behaviour and event dispatch. A component is the value the widget is built from; a listener is a method the model calls.
- `MemberChooser` becomes two parameters: the option edits the user makes while the dialog is open (`OptionEdit`), and the dialog's outcome (`ChooserOutcome`). The dialog opens with every member selected, and it does not allow confirming an empty selection. Its title, the `Project` argument and `PsiFieldMember` are left out. Members are opaque, so their type is a type parameter. The model assumes the dialog returns the members still ticked in their original order, duplicates included, since that dialog's code is not part of this model. The order of option edits relative to member ticks is not modelled, because the two never interact.
- A combo box change fires its item listener twice in Swing: once for the deselected item and once for the selected one. Both runs read the same selected item. The model runs the listener once per edit; `ChoiceGroups.ComboWriteIdempotent` shows that a second run changes nothing.
- `ApplicationManager.getApplication().isUnitTestMode()` is the parameter `unitTestMode`.
- `PropertiesComponent.getInstance()` is the `SettingsStore` passed in. How the store persists, and whether a global instance is shared, is not modelled.
- OptionSelector.BuildOptionComponent: the `return null` for a descriptor of neither variant is unreachable, because the descriptor type has exactly two variants.
- OptionSelector.BuildOptionCheckBox: requires a non-null option. The source would throw a `NullPointerException` when it reads the key of a null option. `CatalogueShape` proves that every catalogue descriptor meets this.
- OptionSelector.BuildOptionComboBox: requires a non-null map, for the same reason.
- The option map is shared by reference in the source, between the descriptor, the combo box and its listener. Nothing mutates the map after `createGeneratorOptions`, so the model passes it as a value.
- OptionSelector.CreateGeneratorOptions: each builder chain is its own method, so that each chain verifies on its own. The list additions are modelled as one sequence.
- `Option`, the interface behind `getCaption`, `getMnemonic` and `getToolTip`, is the set of shared fields of `Descriptors.OptionDescriptor`. The getters are field selectors.
- Descriptors are immutable because they are datatype values. The `final` fields need no separate proof.
- The static `OPTIONS` field is built once, at class initialisation. The model calls `CreateGeneratorOptions` once per session instead. That method reads nothing and is proved to return `Catalogue()`, so both give the same list.
- The private constructor of `InnerBuilderOptionSelector` is left out; it creates nothing.
- `String.format` is modelled for one `%s` only, the only form the source uses.
