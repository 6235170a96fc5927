/** The interaction logic of the segmented picker: the state of each row
    (enabled, pressed or disabled), the visual values derived from it and
    from the selection (foreground opacity, indicator scale, divider
    opacities), and the picker object whose row buttons write the selected
    and the pressed index. */
module SegmentedPicker {
  import opened Wrappers

  /** The picker-wide state. */
  datatype PickerState = PickerEnabled | PickerDisabled {
    predicate IsDisabled() {
      PickerDisabled?
    }
  }

  /** The state of one row. */
  datatype RowState = RowEnabled | RowPressed | RowDisabled

  /** The row state built from the two flags the picker computes for a row;
      a row that is not enabled is disabled whether or not it is pressed. */
  function RowStateOf(isEnabled: bool, isPressed: bool): (r: RowState)
    ensures r == RowDisabled <==> !isEnabled
    ensures r == RowPressed <==> isEnabled && isPressed
  {
    if !isEnabled then RowDisabled
    else if isPressed then RowPressed
    else RowEnabled
  }

  /** `rowState(for:)`: a row is enabled when neither the picker nor the row
      is disabled, and pressed when it is the pressed row. */
  function ResolveRowState(state: PickerState, disabledIndexes: set<int>, pressedIndex: Option<int>, index: int): (r: RowState)
    ensures r == RowDisabled <==> state.IsDisabled() || index in disabledIndexes
    ensures r == RowPressed <==> !state.IsDisabled() && index !in disabledIndexes && pressedIndex == Some(index)
    ensures r == RowEnabled <==> !state.IsDisabled() && index !in disabledIndexes && pressedIndex != Some(index)
  {
    RowStateOf(!state.IsDisabled() && index !in disabledIndexes, pressedIndex == Some(index))
  }

  /** The `isDisabled` flag handed to row `index`'s button: exactly "the
      row's state is disabled", whichever row is pressed. */
  function RowButtonDisabled(state: PickerState, disabledIndexes: set<int>, index: int): (b: bool)
    ensures forall p: Option<int> :: b <==> ResolveRowState(state, disabledIndexes, p, index) == RowDisabled
  {
    state.IsDisabled() || index in disabledIndexes
  }

  /** The button is disabled exactly when the row's state is disabled, for
      any pressed index: `RowButtonDisabled`'s contract at one pressed index. */
  lemma ButtonDisabledIffRowDisabled(state: PickerState, disabledIndexes: set<int>, pressedIndex: Option<int>, index: int)
    ensures RowButtonDisabled(state, disabledIndexes, index) <==> ResolveRowState(state, disabledIndexes, pressedIndex, index) == RowDisabled
  {
  }

  /** Whether a row is disabled does not depend on which row is pressed. */
  lemma EnablementIgnoresPress(state: PickerState, disabledIndexes: set<int>, p: Option<int>, q: Option<int>, index: int)
    ensures (ResolveRowState(state, disabledIndexes, p, index) == RowDisabled) ==
            (ResolveRowState(state, disabledIndexes, q, index) == RowDisabled)
  {
  }

  /** At most one row is pressed at a time. */
  lemma AtMostOnePressed(state: PickerState, disabledIndexes: set<int>, pressedIndex: Option<int>, i: int, j: int)
    requires ResolveRowState(state, disabledIndexes, pressedIndex, i) == RowPressed
    requires ResolveRowState(state, disabledIndexes, pressedIndex, j) == RowPressed
    ensures i == j && pressedIndex == Some(i)
  {
  }

  /** The layout values of the picker's configuration that the interaction
      logic reads. */
  datatype PickerLayout = PickerLayout(indicatorPressedScale: real)

  /** The colour values of the picker's configuration that the interaction
      logic reads: the title colour per picker state and the row opacities. */
  datatype PickerColors<C> = PickerColors(textEnabled: C, textDisabled: C, pressedOpacity: real, disabledOpacity: real) {

    /** The title colour for the picker-wide state. */
    function TextColor(state: PickerState): (r: C)
      ensures state.IsDisabled() ==> r == textDisabled
      ensures !state.IsDisabled() ==> r == textEnabled
    {
      match state
      case PickerEnabled => textEnabled
      case PickerDisabled => textDisabled
    }

    /** The content opacity of a row in `state`. */
    function ForegroundOpacity(state: RowState): (r: real)
      ensures state == RowEnabled ==> r == 1.0
      ensures state == RowPressed ==> r == pressedOpacity
      ensures state == RowDisabled ==> r == disabledOpacity
    {
      match state
      case RowEnabled => 1.0
      case RowPressed => pressedOpacity
      case RowDisabled => disabledOpacity
    }
  }

  /** The picker's configuration, as far as the interaction logic reads it. */
  datatype PickerModel<C, F> = PickerModel(layout: PickerLayout, colors: PickerColors<C>, font: F)

  /** `foregroundOpacity(for:)`: a disabled row shows the disabled opacity
      even while pressed, the pressed enabled row the pressed opacity, every
      other row full opacity. */
  function RowForegroundOpacity<C>(colors: PickerColors<C>, state: PickerState, disabledIndexes: set<int>,
                                   pressedIndex: Option<int>, index: int): (r: real)
    ensures state.IsDisabled() || index in disabledIndexes ==> r == colors.disabledOpacity
    ensures !state.IsDisabled() && index !in disabledIndexes && pressedIndex == Some(index) ==> r == colors.pressedOpacity
    ensures !state.IsDisabled() && index !in disabledIndexes && pressedIndex != Some(index) ==> r == 1.0
  {
    colors.ForegroundOpacity(ResolveRowState(state, disabledIndexes, pressedIndex, index))
  }

  /** `indicatorScale`: the selection indicator shrinks to the configured
      scale while the selected row is the pressed one, and is 1 otherwise,
      including when nothing is pressed. */
  function IndicatorScale(layout: PickerLayout, selectedIndex: int, pressedIndex: Option<int>): (r: real)
    ensures pressedIndex == Some(selectedIndex) ==> r == layout.indicatorPressedScale
    ensures pressedIndex != Some(selectedIndex) ==> r == 1.0
  {
    match pressedIndex
    case Some(p) => if p == selectedIndex then layout.indicatorPressedScale else 1.0
    case None => 1.0
  }

  /** Unless the pressed scale is configured to 1, the indicator has the
      pressed scale exactly when the selected row is the pressed row. */
  lemma IndicatorScaleIff(layout: PickerLayout, selectedIndex: int, pressedIndex: Option<int>)
    requires layout.indicatorPressedScale != 1.0
    ensures IndicatorScale(layout, selectedIndex, pressedIndex) == layout.indicatorPressedScale <==> pressedIndex == Some(selectedIndex)
  {
  }

  /** Divider `index` sits between row `index` and row `index + 1`; it
      touches `row` when `row` is one of those two. */
  predicate DividerTouches(index: int, row: int) {
    row == index || row == index + 1
  }

  /** `dividerOpacity(for:)`: a divider is hidden exactly when it touches
      the selected row, and fully shown otherwise. */
  function DividerOpacity(selectedIndex: int, index: int): (r: real)
    ensures r == if DividerTouches(index, selectedIndex) then 0.0 else 1.0
  {
    var isBeforeIndicator := index < selectedIndex;
    if !isBeforeIndicator then
      (if index - selectedIndex < 1 then 0.0 else 1.0)
    else
      (if selectedIndex - index <= 1 then 0.0 else 1.0)
  }

  /** The dividers drawn for rows `from` .. `count - 1`: the row loop draws
      a divider after row `i` only when `i <= count - 2`. */
  function DividersFrom(count: nat, selectedIndex: int, from: nat): (r: seq<real>)
    requires from <= count
    ensures |r| == if from < count then count - 1 - from else 0
    ensures forall k :: 0 <= k < |r| ==> r[k] == DividerOpacity(selectedIndex, from + k)
    decreases count - from
  {
    if from == count then []
    else (if from <= count - 2 then [DividerOpacity(selectedIndex, from)] else [])
         + DividersFrom(count, selectedIndex, from + 1)
  }

  /** The opacities of the dividers drawn for `count` rows, in order:
      `max(count - 1, 0)` of them, divider `i` between rows `i` and `i + 1`. */
  function Dividers(count: nat, selectedIndex: int): (r: seq<real>)
    ensures |r| == if count == 0 then 0 else count - 1
    ensures forall i :: 0 <= i < |r| ==> r[i] == DividerOpacity(selectedIndex, i)
  {
    DividersFrom(count, selectedIndex, 0)
  }

  /** The drawn dividers (positions `0` .. `count - 2`) that touch the
      selected row: the one before it and the one after it, where drawn. */
  function TouchingDividers(count: nat, selectedIndex: int): (t: set<int>)
    ensures forall i :: i in t <==> 0 <= i < count - 1 && DividerTouches(i, selectedIndex)
  {
    (if 0 <= selectedIndex - 1 < count - 1 then {selectedIndex - 1} else {}) +
    (if 0 <= selectedIndex < count - 1 then {selectedIndex} else {})
  }

  /** The positions of the hidden dividers among `ds`. */
  function HiddenPositions(ds: seq<real>): (h: set<int>)
    ensures forall i :: i in h <==> 0 <= i < |ds| && ds[i] == 0.0
  {
    set i | 0 <= i < |ds| && ds[i] == 0.0
  }

  /** The hidden dividers are exactly the drawn ones touching the selected
      row. */
  lemma HiddenAreTouching(count: nat, selectedIndex: int)
    ensures HiddenPositions(Dividers(count, selectedIndex)) == TouchingDividers(count, selectedIndex)
  {
    var ds := Dividers(count, selectedIndex);
    forall i
      ensures i in HiddenPositions(ds) <==> i in TouchingDividers(count, selectedIndex)
    {
      if 0 <= i < |ds| {
        assert ds[i] == DividerOpacity(selectedIndex, i);
      }
    }
  }

  /** At most two dividers are hidden. */
  lemma AtMostTwoHidden(count: nat, selectedIndex: int)
    ensures |HiddenPositions(Dividers(count, selectedIndex))| <= 2
  {
    HiddenAreTouching(count, selectedIndex);
  }

  /** When the selected row is one of at least two rows, at least one
      divider is hidden. */
  lemma SelectionHidesADivider(count: nat, selectedIndex: int)
    requires 2 <= count && 0 <= selectedIndex < count
    ensures |HiddenPositions(Dividers(count, selectedIndex))| >= 1
  {
    HiddenAreTouching(count, selectedIndex);
    var i := if selectedIndex < count - 1 then selectedIndex else selectedIndex - 1;
    assert i in TouchingDividers(count, selectedIndex);
  }

  /** A segmented picker: its configuration, state, rows and disabled rows
      are fixed when it is built; the selected index (shared with the
      caller) and the pressed index change as the rows are tapped and
      pressed. */
  class Picker<Row, C, F> {
    const model: PickerModel<C, F>
    const state: PickerState
    const rows: seq<Row>
    const disabledIndexes: set<int>
    var selectedIndex: int
    var pressedIndex: Option<int>

    /** Only a row of the picker can be pressed. */
    ghost predicate Valid()
      reads this
    {
      pressedIndex.Some? ==> 0 <= pressedIndex.value < |rows|
    }

    /** `init(model:selectedIndex:state:views:disabledIndexes:)`; an omitted
        (`None`) state is enabled and omitted disabled rows are none; nothing
        is pressed at first. */
    constructor (model: PickerModel<C, F>, selectedIndex: int, state: Option<PickerState>, views: seq<Row>,
                 disabledIndexes: Option<set<int>>)
      ensures Valid()
      ensures this.model == model && this.rows == views
      ensures state.Some? ==> this.state == state.value
      ensures state.None? ==> this.state == PickerEnabled
      ensures disabledIndexes.Some? ==> this.disabledIndexes == disabledIndexes.value
      ensures disabledIndexes.None? ==> this.disabledIndexes == {}
      ensures this.selectedIndex == selectedIndex && this.pressedIndex == None
    {
      this.model := model;
      this.state := state.GetOr(PickerEnabled);
      this.rows := views;
      this.disabledIndexes := disabledIndexes.GetOr({});
      this.selectedIndex := selectedIndex;
      this.pressedIndex := None;
    }

    /** The action of row `i`'s button: row `i` becomes the selected row;
        the pressed row stays as it was. */
    method Select(i: int)
      requires Valid() && 0 <= i < |rows|
      modifies this`selectedIndex
      ensures Valid()
      ensures selectedIndex == i && pressedIndex == old(pressedIndex)
    {
      selectedIndex := i;
    }

    /** The press callback of row `i`'s button: press-down makes row `i` the
        pressed row, release clears it; the selection stays as it was. */
    method Press(i: int, isPressed: bool)
      requires Valid() && 0 <= i < |rows|
      modifies this`pressedIndex
      ensures Valid()
      ensures pressedIndex == (if isPressed then Some(i) else None)
      ensures selectedIndex == old(selectedIndex)
    {
      pressedIndex := if isPressed then Some(i) else None;
    }

    /** The state of row `index` now. */
    function RowStateAt(index: int): (r: RowState)
      reads this
      ensures r == RowDisabled <==> state.IsDisabled() || index in disabledIndexes
      ensures r == RowPressed <==> !state.IsDisabled() && index !in disabledIndexes && pressedIndex == Some(index)
    {
      ResolveRowState(state, disabledIndexes, pressedIndex, index)
    }

    /** In a valid picker only a row of the picker can be pressed, and it is
        the only pressed row. */
    lemma PressedRowIsARow(i: int)
      requires Valid()
      requires RowStateAt(i) == RowPressed
      ensures 0 <= i < |rows| && pressedIndex == Some(i)
      ensures forall j :: RowStateAt(j) == RowPressed ==> j == i
    {
    }

    /** The indicator's scale now. */
    function CurrentIndicatorScale(): (r: real)
      reads this
      ensures pressedIndex == Some(selectedIndex) ==> r == model.layout.indicatorPressedScale
      ensures pressedIndex != Some(selectedIndex) ==> r == 1.0
    {
      IndicatorScale(model.layout, selectedIndex, pressedIndex)
    }

    /** The opacities of the drawn dividers now. */
    function CurrentDividers(): (r: seq<real>)
      reads this
      ensures |r| == if |rows| == 0 then 0 else |rows| - 1
      ensures forall i :: 0 <= i < |r| ==> r[i] == if DividerTouches(i, selectedIndex) then 0.0 else 1.0
    {
      Dividers(|rows|, selectedIndex)
    }
  }

  /** Three rows, the middle one disabled, the first selected: pressing the
      third row marks it pressed without touching the indicator; selecting
      and pressing it again shrinks the indicator. */
  method PressScenario<C, F>(model: PickerModel<C, F>)
  {
    var p := new Picker(model, 0, None, ["one", "two", "three"], Some({1}));
    assert [p.RowStateAt(0), p.RowStateAt(1), p.RowStateAt(2)] == [RowEnabled, RowDisabled, RowEnabled];
    assert p.CurrentDividers() == [0.0, 1.0];
    p.Press(2, true);
    assert [p.RowStateAt(0), p.RowStateAt(1), p.RowStateAt(2)] == [RowEnabled, RowDisabled, RowPressed];
    assert p.CurrentIndicatorScale() == 1.0;
    p.Press(2, false);
    p.Select(2);
    assert p.CurrentDividers() == [1.0, 0.0];
    p.Press(2, true);
    assert p.CurrentIndicatorScale() == model.layout.indicatorPressedScale;
    p.Press(1, true);
    assert p.RowStateAt(1) == RowDisabled;
  }
}
