/** The rows of a segmented picker built from titles or from an
    enumeration, and the adapter that lets an enumeration-valued selection
    stand in for the picker's integer selected index.
    An enumeration is given by its cases in declaration order; case `k` has
    raw value `k`, so the raw values are 0, 1, ..., one per case. */
module PickerOptions {
  import opened Wrappers
  import opened SegmentedPicker

  /** A title row: the title drawn in one colour and font. */
  datatype TitleContent<S, C, F> = TitleContent(title: S, color: C, font: F)

  /** `xs.map(f)`: `f` applied to every element, in order. */
  function Map<A, B>(xs: seq<A>, f: A -> B): (ys: seq<B>)
    ensures |ys| == |xs|
    ensures forall k :: 0 <= k < |xs| ==> ys[k] == f(xs[k])
  {
    if xs == [] then [] else [f(xs[0])] + Map(xs[1..], f)
  }

  /** The rows of `init(model:selectedIndex:state:titles:disabledIndexes:)`:
      one row per title, in order, all in the title colour of the picker's
      state and in the picker's font. */
  function TitleRows<S, C, F>(model: PickerModel<C, F>, state: PickerState, titles: seq<S>): (rows: seq<TitleContent<S, C, F>>)
    ensures |rows| == |titles|
    ensures forall k :: 0 <= k < |rows| ==> rows[k] == TitleContent(titles[k], model.colors.TextColor(state), model.font)
  {
    Map(titles, (t: S) => TitleContent(t, model.colors.TextColor(state), model.font))
  }

  /** The rows of `init(model:selection:state:disabledIndexes:)` for an
      enumeration with symbols: one row per case, in case order. */
  function SymbolRows<E, R>(allCases: seq<E>, pickerSymbol: E -> R): (rows: seq<R>)
    ensures |rows| == |allCases|
    ensures forall k :: 0 <= k < |rows| ==> rows[k] == pickerSymbol(allCases[k])
  {
    Map(allCases, pickerSymbol)
  }

  /** The rows of the same initialiser for an enumeration with titles: one
      title row per case, in case order, in the title colour of the state. */
  function TitledRows<E, S, C, F>(model: PickerModel<C, F>, state: PickerState, allCases: seq<E>, pickerTitle: E -> S)
    : (rows: seq<TitleContent<S, C, F>>)
    ensures |rows| == |allCases|
    ensures forall k :: 0 <= k < |rows| ==> rows[k] == TitleContent(pickerTitle(allCases[k]), model.colors.TextColor(state), model.font)
  {
    Map(allCases, (e: E) => TitleContent(pickerTitle(e), model.colors.TextColor(state), model.font))
  }

  /** No case is listed twice. */
  ghost predicate Distinct<E>(allCases: seq<E>) {
    forall i, j :: 0 <= i < j < |allCases| ==> allCases[i] != allCases[j]
  }

  /** `rawValue`: the position of case `e` among the cases. */
  function RawValue<E(==)>(allCases: seq<E>, e: E): (r: int)
    requires e in allCases
    ensures 0 <= r < |allCases| && allCases[r] == e
  {
    if allCases[0] == e then 0 else 1 + RawValue(allCases[1..], e)
  }

  /** `init?(rawValue:)`: the case with raw value `raw`, or none when no
      case has it. */
  function FromRawValue<E>(allCases: seq<E>, raw: int): (r: Option<E>)
    ensures r.Some? <==> 0 <= raw < |allCases|
    ensures r.Some? ==> r.value == allCases[raw]
  {
    if 0 <= raw < |allCases| then Some(allCases[raw]) else None
  }

  /** The raw value of the case at position `i` is `i`; `SetThenGet` is
      this fact read through the conversion from a raw value. */
  lemma RawValueOfCase<E>(allCases: seq<E>, i: int)
    requires Distinct(allCases) && 0 <= i < |allCases|
    ensures RawValue(allCases, allCases[i]) == i
  {
  }

  /** Writing index `i` through the adapter and reading it back gives `i`,
      for every index that has a case. */
  lemma SetThenGet<E>(allCases: seq<E>, i: int)
    requires Distinct(allCases) && 0 <= i < |allCases|
    ensures FromRawValue(allCases, i).Some?
    ensures RawValue(allCases, FromRawValue(allCases, i).value) == i
  {
  }

  /** Reading a selection's index and writing it back leaves the selection
      as it was. */
  lemma GetThenSet<E>(allCases: seq<E>, e: E)
    requires e in allCases
    ensures FromRawValue(allCases, RawValue(allCases, e)) == Some(e)
  {
  }

  /** Every row of an enumeration picker has a case: the index a row's
      button writes always converts back, so the forced conversion never
      fails for a tap on a row. */
  lemma RowIndexHasCase<E, R>(allCases: seq<E>, pickerSymbol: E -> R, i: int)
    requires 0 <= i < |SymbolRows(allCases, pickerSymbol)|
    ensures FromRawValue(allCases, i) == Some(allCases[i])
  {
  }

  /** An enumeration-valued selection seen as an integer selected index:
      reading gives the selected case's raw value, writing an index selects
      the case with that raw value. */
  class EnumSelection<E(==)> {
    const allCases: seq<E>
    var selection: E

    ghost predicate Valid()
      reads this
    {
      Distinct(allCases) && selection in allCases
    }

    constructor (allCases: seq<E>, selection: E)
      requires Distinct(allCases) && selection in allCases
      ensures Valid()
      ensures this.allCases == allCases && this.selection == selection
    {
      this.allCases := allCases;
      this.selection := selection;
    }

    /** The getter: the raw value of the selected case. */
    method GetIndex() returns (i: int)
      requires Valid()
      ensures 0 <= i < |allCases| && allCases[i] == selection
    {
      i := RawValue(allCases, selection);
    }

    /** The setter: select the case whose raw value is `i`; the conversion
        is forced, so `i` must be the raw value of some case. */
    method SetIndex(i: int)
      requires Valid()
      requires FromRawValue(allCases, i).Some?
      modifies this`selection
      ensures Valid()
      ensures selection == allCases[i]
    {
      selection := FromRawValue(allCases, i).value;
    }
  }

  /** Tapping row `i` of an enumeration picker and reading the selected
      index back gives `i`. */
  method SelectRow<E>(binding: EnumSelection<E>, i: int) returns (read: int)
    requires binding.Valid() && 0 <= i < |binding.allCases|
    modifies binding
    ensures binding.Valid()
    ensures read == i && binding.selection == binding.allCases[i]
  {
    binding.SetIndex(i);
    read := binding.GetIndex();
  }
}
