/** The configuration of the flexible primary button: layout metrics,
    colours per state, fonts, their defaults, and the state-to-colour and
    state-to-opacity mappings the button's view reads.
    A Swift default argument is modelled as an `Option` parameter: `None`
    means the argument was omitted and the default applies. */
module PrimaryButtonFlexible {
  import opened Wrappers
  import opened ButtonState

  /** Layout metrics; the loader spacing and width are fixed, not settable. */
  datatype Layout = Layout(height: real, cornerRadius: real, borderWidth: real, contentInset: real) {
    const loaderSpacing: real := 20.0
    const loaderWidth: real := 10.0
  }

  /** `Layout(height:cornerRadius:borderWidth:contentInset:)` with defaults
      50, 20, 0 and 15. */
  function LayoutInit(height: Option<real>, cornerRadius: Option<real>,
                      borderWidth: Option<real>, contentInset: Option<real>): (l: Layout)
    ensures height.Some? ==> l.height == height.value
    ensures cornerRadius.Some? ==> l.cornerRadius == cornerRadius.value
    ensures borderWidth.Some? ==> l.borderWidth == borderWidth.value
    ensures contentInset.Some? ==> l.contentInset == contentInset.value
    ensures height.None? ==> l.height == 50.0
    ensures cornerRadius.None? ==> l.cornerRadius == 20.0
    ensures borderWidth.None? ==> l.borderWidth == 0.0
    ensures contentInset.None? ==> l.contentInset == 15.0
  {
    Layout(height.GetOr(50.0), cornerRadius.GetOr(20.0), borderWidth.GetOr(0.0), contentInset.GetOr(15.0))
  }

  /** Text colour per state and the opacity applied while pressed. */
  datatype ForegroundColors<C> = ForegroundColors(enabled: C, pressed: C, disabled: C, loading: C, pressedOpacity: real)

  /** `ForegroundColors()`: the registry's text colours and a pressed opacity of 0.5. */
  function DefaultForegroundColors<C>(book: PrimaryButtonBook<C>): (f: ForegroundColors<C>)
    ensures f.pressedOpacity == 0.5
    ensures f.enabled == book.text.enabled && f.pressed == book.text.pressed
    ensures f.disabled == book.text.disabled && f.loading == book.text.loading
  {
    ForegroundColors(book.text.enabled, book.text.pressed, book.text.disabled, book.text.loading, 0.5)
  }

  /** Foreground, fill and border colours. */
  datatype Colors<C> = Colors(foreground: ForegroundColors<C>, fill: StateColors<C>, border: StateColors<C>) {

    /** The foreground colour of `state`: the field named after it. */
    function ForegroundColor(state: PrimaryState): (r: C)
      ensures state == Enabled ==> r == foreground.enabled
      ensures state == Pressed ==> r == foreground.pressed
      ensures state == Disabled ==> r == foreground.disabled
      ensures state == Loading ==> r == foreground.loading
    {
      match state
      case Enabled => foreground.enabled
      case Pressed => foreground.pressed
      case Disabled => foreground.disabled
      case Loading => foreground.loading
    }

    /** The fill colour of `state`. */
    function FillColor(state: PrimaryState): (r: C)
      ensures state == Enabled ==> r == fill.enabled
      ensures state == Pressed ==> r == fill.pressed
      ensures state == Disabled ==> r == fill.disabled
      ensures state == Loading ==> r == fill.loading
    {
      fill.Pick(state)
    }

    /** The border colour of `state`. */
    function BorderColor(state: PrimaryState): (r: C)
      ensures state == Enabled ==> r == border.enabled
      ensures state == Pressed ==> r == border.pressed
      ensures state == Disabled ==> r == border.disabled
      ensures state == Loading ==> r == border.loading
    {
      border.Pick(state)
    }

    /** The foreground opacity: lowered only while pressed. */
    function ForegroundOpacity(state: PrimaryState): (r: real)
      ensures state == Pressed ==> r == foreground.pressedOpacity
      ensures state != Pressed ==> r == 1.0
    {
      match state
      case Enabled => 1.0
      case Pressed => foreground.pressedOpacity
      case Disabled => 1.0
      case Loading => 1.0
    }
  }

  /** `Colors(foreground:fill:border:)`, each defaulting to the registry's entries. */
  function ColorsInit<C>(foreground: Option<ForegroundColors<C>>, fill: Option<StateColors<C>>,
                         border: Option<StateColors<C>>, book: PrimaryButtonBook<C>): (c: Colors<C>)
    ensures foreground.Some? ==> c.foreground == foreground.value
    ensures fill.Some? ==> c.fill == fill.value
    ensures border.Some? ==> c.border == border.value
    ensures foreground.None? ==> c.foreground == DefaultForegroundColors(book)
    ensures fill.None? ==> c.fill == book.fill
    ensures border.None? ==> c.border == book.border
  {
    Colors(foreground.GetOr(DefaultForegroundColors(book)), fill.GetOr(book.fill), border.GetOr(book.border))
  }

  /** Fonts; the default title font is the registry's large button font. */
  datatype Fonts<F> = Fonts(title: F)

  /** The whole configuration. */
  datatype ViewModel<C, F> = ViewModel(layout: Layout, colors: Colors<C>, fonts: Fonts<F>)

  /** `VPrimaryButtonFlexibleViewModel(layout:colors:fonts:)`: supplied parts
      are stored unchanged, omitted ones take their defaults. */
  function ViewModelInit<C, F>(layout: Option<Layout>, colors: Option<Colors<C>>, fonts: Option<Fonts<F>>,
                               book: PrimaryButtonBook<C>, buttonLarge: F): (vm: ViewModel<C, F>)
    ensures layout.Some? ==> vm.layout == layout.value
    ensures colors.Some? ==> vm.colors == colors.value
    ensures fonts.Some? ==> vm.fonts == fonts.value
    ensures layout.None? ==> vm.layout == LayoutInit(None, None, None, None)
    ensures colors.None? ==> vm.colors == ColorsInit(None, None, None, book)
    ensures fonts.None? ==> vm.fonts == Fonts(buttonLarge)
  {
    ViewModel(layout.GetOr(LayoutInit(None, None, None, None)),
              colors.GetOr(ColorsInit(None, None, None, book)),
              fonts.GetOr(Fonts(buttonLarge)))
  }

  /** The default layout: height 50, corner radius 20, no border, content
      inset 15, and the fixed loader spacing 20 and width 10. */
  lemma DefaultLayout()
    ensures LayoutInit(None, None, None, None) == Layout(50.0, 20.0, 0.0, 15.0)
    ensures LayoutInit(None, None, None, None).loaderSpacing == 20.0
    ensures LayoutInit(None, None, None, None).loaderWidth == 10.0
  {
  }

  /** Each argument is defaulted on its own: supplying one argument changes
      that field of the default layout and no other. */
  lemma LayoutArgumentsIndependent(x: real)
    ensures LayoutInit(Some(x), None, None, None) == LayoutInit(None, None, None, None).(height := x)
    ensures LayoutInit(None, Some(x), None, None) == LayoutInit(None, None, None, None).(cornerRadius := x)
    ensures LayoutInit(None, None, Some(x), None) == LayoutInit(None, None, None, None).(borderWidth := x)
    ensures LayoutInit(None, None, None, Some(x)) == LayoutInit(None, None, None, None).(contentInset := x)
  {
  }

  /** With default colours the pressed foreground is drawn at half opacity
      and every other state at full opacity. */
  lemma DefaultForegroundOpacity<C>(book: PrimaryButtonBook<C>, state: PrimaryState)
    ensures ColorsInit(None, None, None, book).ForegroundOpacity(state) == if state == Pressed then 0.5 else 1.0
  {
  }

  /** Each state's foreground colour reads only that state's field, and with
      default colours the colour of each state is the registry's text
      colour of that state. */
  lemma ForegroundColorReadsOwnField<C>(c: Colors<C>, state: PrimaryState, x: C, book: PrimaryButtonBook<C>)
    ensures c.(foreground := c.foreground.(enabled := x)).ForegroundColor(state) == if state == Enabled then x else c.ForegroundColor(state)
    ensures c.(foreground := c.foreground.(pressed := x)).ForegroundColor(state) == if state == Pressed then x else c.ForegroundColor(state)
    ensures c.(foreground := c.foreground.(disabled := x)).ForegroundColor(state) == if state == Disabled then x else c.ForegroundColor(state)
    ensures c.(foreground := c.foreground.(loading := x)).ForegroundColor(state) == if state == Loading then x else c.ForegroundColor(state)
    ensures ColorsInit(None, None, None, book).ForegroundColor(state) == book.text.Pick(state)
  {
  }

  /** With default colours the fill and border colours of each state are
      the registry's fill and border colours of that state. */
  lemma DefaultFillAndBorder<C>(book: PrimaryButtonBook<C>, state: PrimaryState)
    ensures ColorsInit(None, None, None, book).FillColor(state) == book.fill.Pick(state)
    ensures ColorsInit(None, None, None, book).BorderColor(state) == book.border.Pick(state)
  {
  }
}
