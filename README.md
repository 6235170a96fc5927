# VComponents interaction and style model

A Dafny model of the logic inside the VComponents SwiftUI widget library:

- **Segmented picker** (`segmented_picker.dfy`, `picker_options.dfy`). The state of each row (enabled, pressed or disabled) comes from the picker-wide state, the set of disabled rows and the pressed row. The picker derives several visuals from it and from the selected row: each row's content opacity, the scale of the selection indicator, and the opacity of every divider. It also counts the dividers drawn. `SegmentedPicker.Picker` is the picker object. Its row buttons write the selected index on a tap, and write the pressed index on press-down and on release. The module `PickerOptions` builds the rows for the title and enumeration initialisers. It also models the adapter that presents an enumeration-valued selection as the picker's integer index, through `rawValue` and `init?(rawValue:)`.
- **Button style tables** (`primary_button_flexible.dfy`, `primary_button.dfy`, `plain_button.dfy`, `button_state.dfy`). These are the immutable configuration records of the flexible primary button, the primary button and the plain button. The model covers their default values and their total mappings from a button state to a colour or an opacity.

Colours and fonts are opaque type parameters `C` and `F`. The shared colour and font registries (`ColorBook`, `FontBook`) are passed in as values (`PrimaryButtonBook`, `PlainButtonBook`, the `buttonLarge` font). Lengths and opacities are `real`. A Swift default argument is an `Option` parameter, in the button records and in the picker's constructor: `None` means the argument was left out. A no-argument initialiser is a `Default…` function.

## Model

| member | source | states |
|---|---|---|
| `SegmentedPicker.RowStateOf` | VComponents/Components/Components/VSegmentedPicker/VSegmentedPicker.swift:19-22 | a row that is not enabled is disabled, even when pressed; an enabled row is pressed iff its press flag is set |
| `SegmentedPicker.ResolveRowState` | VComponents/Components/Components/VSegmentedPicker/VSegmentedPicker.swift:19-22 | a row is disabled iff the picker is disabled or the row is in `disabledIndexes`; it is pressed iff it is not disabled and `pressedIndex == index`; otherwise it is enabled |
| `SegmentedPicker.RowButtonDisabled` | VComponents/Components/Components/VSegmentedPicker/VSegmentedPicker.swift:147 | a row's button is disabled iff the row's state is disabled, i.e. iff it is not enabled, for every pressed index |
| `SegmentedPicker.ButtonDisabledIffRowDisabled` | VComponents/Components/Components/VSegmentedPicker/VSegmentedPicker.swift:147 | the button's `isDisabled` is exactly "the row's state is disabled", whatever row is pressed |
| `SegmentedPicker.EnablementIgnoresPress` | VComponents/Components/Components/VSegmentedPicker/VSegmentedPicker.swift:20 | whether a row is disabled does not depend on `pressedIndex` |
| `SegmentedPicker.AtMostOnePressed` | VComponents/Components/Components/VSegmentedPicker/VSegmentedPicker.swift:21 | two pressed rows are the same row, and that row is `pressedIndex` |
| `SegmentedPicker.PickerColors.TextColor` | VComponents/Components/Components/VSegmentedPicker/VSegmentedPicker.swift:59 | the title colour for a disabled picker is the disabled text colour; otherwise it is the enabled text colour |
| `SegmentedPicker.PickerColors.ForegroundOpacity` | VComponents/Components/Components/VSegmentedPicker/VSegmentedPicker.swift:189-191 | an enabled row has opacity 1, a pressed row the pressed opacity, a disabled row the disabled opacity |
| `SegmentedPicker.RowForegroundOpacity` | VComponents/Components/Components/VSegmentedPicker/VSegmentedPicker.swift:189-191 | a disabled row shows the disabled opacity even when pressed; the pressed enabled row shows the pressed opacity; every other row shows 1 |
| `SegmentedPicker.IndicatorScale` | VComponents/Components/Components/VSegmentedPicker/VSegmentedPicker.swift:182-187 | the scale is the configured pressed scale when the pressed row is the selected row; it is 1 otherwise, including when nothing is pressed |
| `SegmentedPicker.IndicatorScaleIff` | VComponents/Components/Components/VSegmentedPicker/VSegmentedPicker.swift:182-187 | unless the pressed scale is 1, the indicator has the pressed scale iff `pressedIndex == selectedIndex` |
| `SegmentedPicker.DividerOpacity` | VComponents/Components/Components/VSegmentedPicker/VSegmentedPicker.swift:193-200 | divider `i` has opacity 0 iff it touches the selected row (`i == selectedIndex - 1` or `i == selectedIndex`), and opacity 1 otherwise |
| `SegmentedPicker.DividersFrom` | VComponents/Components/Components/VSegmentedPicker/VSegmentedPicker.swift:167-174 | the loop from row `from` to the last row draws `max(count - 1 - from, 0)` dividers; the `k`-th has the opacity of divider `from + k` |
| `SegmentedPicker.Dividers` | VComponents/Components/Components/VSegmentedPicker/VSegmentedPicker.swift:165-177 | `count` rows get `max(count - 1, 0)` dividers; divider `i` (between rows `i` and `i + 1`) has opacity `DividerOpacity(selectedIndex, i)` |
| `SegmentedPicker.HiddenAreTouching` | VComponents/Components/Components/VSegmentedPicker/VSegmentedPicker.swift:193-200 | the hidden drawn dividers are exactly the drawn ones that touch the selected row |
| `SegmentedPicker.AtMostTwoHidden` | VComponents/Components/Components/VSegmentedPicker/VSegmentedPicker.swift:193-200 | at most two dividers are hidden |
| `SegmentedPicker.SelectionHidesADivider` | VComponents/Components/Components/VSegmentedPicker/VSegmentedPicker.swift:165-200 | when the selected row is one of two or more rows, at least one divider is hidden |
| `SegmentedPicker.Picker.constructor` | VComponents/Components/Components/VSegmentedPicker/VSegmentedPicker.swift:30-42 | stores the configuration, rows and selected index; a supplied state and disabled set are stored, an omitted state is enabled and an omitted disabled set is empty; nothing is pressed |
| `SegmentedPicker.Picker.RowStateAt` | VComponents/Components/Components/VSegmentedPicker/VSegmentedPicker.swift:19-22 | the picker's current row state: disabled iff the picker or the row is disabled; pressed iff enabled and the pressed row |
| `SegmentedPicker.Picker.CurrentIndicatorScale` | VComponents/Components/Components/VSegmentedPicker/VSegmentedPicker.swift:182-187 | the picker's current indicator scale: the pressed scale when the selected row is pressed, 1 otherwise |
| `SegmentedPicker.Picker.CurrentDividers` | VComponents/Components/Components/VSegmentedPicker/VSegmentedPicker.swift:165-177 | the picker's current dividers: one fewer than its rows (none for no rows), each hidden iff it touches the selected row |
| `SegmentedPicker.Picker.Select` | VComponents/Components/Components/VSegmentedPicker/VSegmentedPicker.swift:148 | tapping row `i` makes `i` the selected index and leaves the pressed index unchanged |
| `SegmentedPicker.Picker.PressedRowIsARow` | VComponents/Components/Components/VSegmentedPicker/VSegmentedPicker.swift:18-22 | in a picker whose tap and press closures are the only writers, a pressed row is a row of the picker, it is `pressedIndex`, and no other row is pressed |
| `SegmentedPicker.Picker.Press` | VComponents/Components/Components/VSegmentedPicker/VSegmentedPicker.swift:149 | press-down on row `i` makes `i` the pressed index; release clears it; the selection is unchanged; only a row of the picker can be pressed |
| `PickerOptions.TitleRows` | VComponents/Components/Components/VSegmentedPicker/VSegmentedPicker.swift:59 | one row per title, in order; every row uses the title colour of the picker's state and the picker's font |
| `PickerOptions.SymbolRows` | VComponents/Components/Components/VSegmentedPicker/VSegmentedPicker.swift:81 | one row per enumeration case, in case order; each row is that case's symbol |
| `PickerOptions.TitledRows` | VComponents/Components/Components/VSegmentedPicker/VSegmentedPicker.swift:104 | one title row per case, in case order, titled by that case, in the state's title colour and the picker's font |
| `PickerOptions.RawValue` | VComponents/Components/Components/VSegmentedPicker/VSegmentedPicker.swift:77 | the getter's `rawValue` is a valid row index whose case is the selected case |
| `PickerOptions.FromRawValue` | VComponents/Components/Components/VSegmentedPicker/VSegmentedPicker.swift:78 | `init?(rawValue:)` yields a case iff `0 <= raw < |allCases|`, and then it yields case number `raw` |
| `PickerOptions.RawValueOfCase` | VComponents/Components/Components/VSegmentedPicker/VSegmentedPicker.swift:76-79 | for distinct cases, the raw value of the case at position `i` is `i` |
| `PickerOptions.SetThenGet` | VComponents/Components/Components/VSegmentedPicker/VSegmentedPicker.swift:76-81 | writing any index `0 <= i < |allCases|` through the adapter and reading it back gives `i`, and the forced conversion succeeds |
| `PickerOptions.GetThenSet` | VComponents/Components/Components/VSegmentedPicker/VSegmentedPicker.swift:99-102 | reading the index of a selection and writing it back gives the same selection |
| `PickerOptions.RowIndexHasCase` | VComponents/Components/Components/VSegmentedPicker/VSegmentedPicker.swift:78-81 | an enumeration picker has as many rows as cases, so the index written by any row's tap converts back to that row's case |
| `PickerOptions.EnumSelection.constructor` | VComponents/Components/Components/VSegmentedPicker/VSegmentedPicker.swift:76-79 | the adapter wraps the selection and the case list unchanged |
| `PickerOptions.EnumSelection.GetIndex` | VComponents/Components/Components/VSegmentedPicker/VSegmentedPicker.swift:77 | the getter returns a valid row index whose case is the selection |
| `PickerOptions.EnumSelection.SetIndex` | VComponents/Components/Components/VSegmentedPicker/VSegmentedPicker.swift:78 | the setter needs an index that has a case (forced unwrap) and selects that case |
| `PickerOptions.SelectRow` | VComponents/Components/Components/VSegmentedPicker/VSegmentedPicker.swift:99-104 | tapping row `i` of an enumeration picker selects case `i`, and reading the selected index then gives `i` |
| `ButtonState.StateColors.Pick` | VComponents/VPrimaryButtonViewModel.swift:164-180 | each of the four states picks the colour field named after it |
| `ButtonState.PickReadsOwnField` | VComponents/VPrimaryButtonViewModel.swift:164-180 | overwriting the field of one state changes that state's colour and no other state's colour |
| `ButtonState.PickInjective` | VComponents/VPrimaryButtonViewModel.swift:164-171 | when the four colours differ, different states get different colours |
| `ButtonState.PickCoversFields` | VComponents/VPrimaryButtonViewModel.swift:173-180 | the colours picked over all states are exactly the four fields |
| `PrimaryButtonFlexible.LayoutInit` | VComponents/Components/VPrimaryButton/Flexible/VPrimaryButtonFlexibleViewModel.swift:37-47 | every supplied layout argument is stored unchanged; each omitted one takes its own default (height 50, corner radius 20, border width 0, content inset 15) |
| `PrimaryButtonFlexible.LayoutArgumentsIndependent` | VComponents/Components/VPrimaryButton/Flexible/VPrimaryButtonFlexibleViewModel.swift:38-41 | supplying one layout argument changes that field of the default layout and no other |
| `PrimaryButtonFlexible.DefaultLayout` | VComponents/Components/VPrimaryButton/Flexible/VPrimaryButtonFlexibleViewModel.swift:33-41 | default layout: height 50, corner radius 20, border width 0, content inset 15; the fixed loader spacing is 20 and the loader width 10 |
| `PrimaryButtonFlexible.DefaultForegroundColors` | VComponents/Components/VPrimaryButton/Flexible/VPrimaryButtonFlexibleViewModel.swift:86-95 | the default text colours are the registry's primary-button text colours, and the default pressed opacity is 0.5 |
| `PrimaryButtonFlexible.Colors.ForegroundColor` | VComponents/Components/VPrimaryButton/Flexible/VPrimaryButtonFlexibleViewModel.swift:170-177 | each of the four states returns the foreground field named after it |
| `PrimaryButtonFlexible.Colors.FillColor` | VComponents/Components/VPrimaryButton/Flexible/VPrimaryButtonFlexibleViewModel.swift:179-186 | each of the four states returns the fill field named after it |
| `PrimaryButtonFlexible.Colors.BorderColor` | VComponents/Components/VPrimaryButton/Flexible/VPrimaryButtonFlexibleViewModel.swift:188-195 | each of the four states returns the border field named after it |
| `PrimaryButtonFlexible.Colors.ForegroundOpacity` | VComponents/Components/VPrimaryButton/Flexible/VPrimaryButtonFlexibleViewModel.swift:197-204 | the opacity is `foreground.pressedOpacity` when pressed, and 1 when enabled, disabled or loading |
| `PrimaryButtonFlexible.ColorsInit` | VComponents/Components/VPrimaryButton/Flexible/VPrimaryButtonFlexibleViewModel.swift:60-64 | supplied colour sets are stored unchanged; omitted ones are the defaults (the registry's fill and border colours) |
| `PrimaryButtonFlexible.ViewModelInit` | VComponents/Components/VPrimaryButton/Flexible/VPrimaryButtonFlexibleViewModel.swift:18-22 | supplied layout, colours and fonts are stored unchanged; omitted ones are the defaults |
| `PrimaryButtonFlexible.DefaultForegroundOpacity` | VComponents/Components/VPrimaryButton/Flexible/VPrimaryButtonFlexibleViewModel.swift:93 | with default colours, a pressed button's foreground has opacity 0.5 and every other state has opacity 1 |
| `PrimaryButtonFlexible.ForegroundColorReadsOwnField` | VComponents/Components/VPrimaryButton/Flexible/VPrimaryButtonFlexibleViewModel.swift:170-177 | overwriting one state's foreground field changes only that state's colour; with default colours each state shows the registry's text colour for that state |
| `PrimaryButtonFlexible.DefaultFillAndBorder` | VComponents/Components/VPrimaryButton/Flexible/VPrimaryButtonFlexibleViewModel.swift:113-145 | with default colours each state's fill and border are the registry's fill and border colours for that state |
| `PrimaryButton.DefaultCommon` | VComponents/VPrimaryButtonViewModel.swift:67-73 | the default common layout is height 50, corner radius 20, content inset 15 |
| `PrimaryButton.DefaultFixed` | VComponents/VPrimaryButtonViewModel.swift:85-89 | the default fixed width is 300 |
| `PrimaryButton.DefaultLayout` | VComponents/VPrimaryButtonViewModel.swift:46-51 | the default layout is made of the default common and default fixed parts |
| `PrimaryButton.DefaultColors` | VComponents/VPrimaryButtonViewModel.swift:106-121 | the default foreground is the registry's text colours and the default background is its fill colours |
| `PrimaryButton.DefaultViewModel` | VComponents/VPrimaryButtonViewModel.swift:24-30 | the no-argument initialiser equals the full initialiser applied to each part's default |
| `PrimaryButton.Foreground` | VComponents/VPrimaryButtonViewModel.swift:164-171 | each of the four states returns `vm.colors.foreground` of that state |
| `PrimaryButton.Background` | VComponents/VPrimaryButtonViewModel.swift:173-180 | each of the four states returns `vm.colors.background` of that state |
| `PrimaryButton.DefaultViewModelValues` | VComponents/VPrimaryButtonViewModel.swift:67-89 | the default configuration has height 50, corner radius 20, inset 15, width 300, the large button font, and per state the registry's text colour on its fill colour |
| `PrimaryButton.MappingsIndependent` | VComponents/VPrimaryButtonViewModel.swift:163-180 | the foreground mapping ignores the background colours, and the background mapping ignores the foreground colours |
| `PlainButton.LayoutInit` | VComponents/Components/Components/VPlainButton/Standard/VPlainButtonStandardModel.swift:33-39 | supplied hit-box extensions are stored unchanged; an omitted one is 15 horizontally or 5 vertically |
| `PlainButton.ArgumentsIndependent` | VComponents/Components/Components/VPlainButton/Standard/VPlainButtonStandardModel.swift:33-70 | supplying any one of the two layout arguments or the five foreground-colour arguments changes that field of the default and no other |
| `PlainButton.DefaultLayout` | VComponents/Components/Components/VPlainButton/Standard/VPlainButtonStandardModel.swift:34-35 | the default hit box extends 15 horizontally and 5 vertically |
| `PlainButton.ForegroundColorsInit` | VComponents/Components/Components/VPlainButton/Standard/VPlainButtonStandardModel.swift:64-76 | supplied colours and opacities are stored unchanged; omitted colours are the registry's plain-button text colours and each omitted opacity is 0.5 |
| `PlainButton.Colors.ForegroundColor` | VComponents/Components/Components/VPlainButton/Standard/VPlainButtonStandardModel.swift:95-101 | enabled, pressed and disabled each return the field named after them |
| `PlainButton.Colors.ForegroundOpacity` | VComponents/Components/Components/VPlainButton/Standard/VPlainButtonStandardModel.swift:103-109 | the opacity is 1 when enabled, `pressedOpacity` when pressed and `disabledOpacity` when disabled |
| `PlainButton.ColorsInit` | VComponents/Components/Components/VPlainButton/Standard/VPlainButtonStandardModel.swift:48-52 | a supplied foreground set is stored unchanged; an omitted one is `ForegroundColors()` |
| `PlainButton.ModelInit` | VComponents/Components/Components/VPlainButton/Standard/VPlainButtonStandardModel.swift:16-24 | supplied layout, colours and fonts are stored unchanged; omitted ones are the defaults |
| `PlainButton.DefaultForeground` | VComponents/Components/Components/VPlainButton/Standard/VPlainButtonStandardModel.swift:64-70 | by default the pressed and the disabled text are both at opacity 0.5 and the enabled text at 1; each state shows the registry's colour for it |
| `PlainButton.ForegroundOpacityBounded` | VComponents/Components/Components/VPlainButton/Standard/VPlainButtonStandardModel.swift:103-109 | every state's opacity lies in [0, 1] when the configured opacities do |

## Left out

- View composition in `body`: the stacks, frames, corner radii, shadow, background and indicator colours, padding and animation. The host toolkit renders these, and they hold no logic.
- Row width and indicator offset (`rowWidth`, `readSize`, `rowWidth * selectedIndex`). They are floating-point geometry measured by the host toolkit.
- `VSegmentedPickerRowState` is not part of this model. `SegmentedPicker.RowStateOf`: its rule that a disabled row never reports pressed is an assumption about that type's initialiser.
- `SegmentedPicker.Picker.constructor`: the picker's configuration argument has no default here, because the default `VSegmentedPickerModel()` is not part of this model; the state and disabled-row defaults are modelled.
- `VSegmentedPickerModel` is not part of this model. `PickerModel` keeps only the values the picker reads: the indicator's pressed scale, the pressed and disabled opacities, the title colour per picker state, and the font. Its defaults are not modelled.
- `SegmentedPicker.PickerColors.ForegroundOpacity`: the mapping (1, pressed opacity, disabled opacity) is an assumption that copies the plain button's mapping. The picker model's own mapping is not part of this model.
- `VBaseButton` and its gesture detection are not part of this model. `Picker.Select` and `Picker.Press` are the row closures themselves. Whether a disabled button still calls them is left open. `Picker.Press` may therefore press a disabled row, and `ResolveRowState` then still reports it disabled.
- `@Binding` and `@State` change notification. The selected index is a plain field of `Picker`; for an enumeration picker it is the `EnumSelection` adapter. The picker's state, rows and disabled rows are constants, because a state change in SwiftUI builds a new view value.
- The picker never checks that `selectedIndex` is a row index, so the model does not require it either. The derived visuals are defined for every integer.
- `PickerOptions.RawValue`: the enumeration protocols are not part of this model. Raw values are assumed to be `Int` and to run 0, 1, 2, … in `allCases` order, as Swift assigns them by default.
- Swift's `Int` overflow trap in `dividerOpacity`'s subtractions is not modelled, because row indices are small. Integers are unbounded here.
- `CGFloat` and `Double` values are exact `real`s. The modelled source only stores and returns them.
- `ColorBook` and `FontBook` are not part of this model. Their entries are parameters.
- `VGenericButtonContentView`, `VCircularButton` and the demo screens are left out. They apply view modifiers only and hold no logic.
- The wheel picker is outside the modelled core. Its enumeration binding (a `rawValue` getter and a forced `init?(rawValue:)` setter) is the same adapter as `PickerOptions.EnumSelection`, and its title rows, built by a content closure inside the row loop, are analogous to `PickerOptions.TitleRows`.
