/** The configuration of the primary button: layout split into common and
    fixed-width metrics, foreground and background colours per state,
    fonts, the defaults each part's no-argument initialiser supplies, and
    the static state-to-colour mappings. */
module PrimaryButton {
  import opened ButtonState

  /** Metrics shared by every primary button. */
  datatype Common = Common(height: real, cornerRadius: real, contentInset: real)

  /** Metrics of the fixed-width variant. */
  datatype Fixed = Fixed(width: real)

  datatype Layout = Layout(common: Common, fixed: Fixed)

  /** `Common()`: height 50, corner radius 20, content inset 15. */
  function DefaultCommon(): (c: Common)
    ensures c.height == 50.0 && c.cornerRadius == 20.0 && c.contentInset == 15.0
  {
    Common(50.0, 20.0, 15.0)
  }

  /** `Fixed()`: width 300. */
  function DefaultFixed(): (f: Fixed)
    ensures f.width == 300.0
  {
    Fixed(300.0)
  }

  /** `Layout()`: the defaults of both parts. */
  function DefaultLayout(): (l: Layout)
    ensures l.common == DefaultCommon() && l.fixed == DefaultFixed()
  {
    Layout(DefaultCommon(), DefaultFixed())
  }

  /** Foreground (text) and background (fill) colour per state. */
  datatype Colors<C> = Colors(foreground: StateColors<C>, background: StateColors<C>)

  /** `Colors()`: the registry's text colours as foreground and its fill
      colours as background. */
  function DefaultColors<C>(book: PrimaryButtonBook<C>): (c: Colors<C>)
    ensures c.foreground == book.text && c.background == book.fill
  {
    Colors(book.text, book.fill)
  }

  datatype Fonts<F> = Fonts(title: F)

  /** The whole configuration; the full initialiser is the constructor. */
  datatype ViewModel<C, F> = ViewModel(layout: Layout, colors: Colors<C>, fonts: Fonts<F>)

  /** The no-argument initialiser: the full initialiser applied to each
      part's default, the title font being the registry's large button font. */
  function DefaultViewModel<C, F>(book: PrimaryButtonBook<C>, buttonLarge: F): (vm: ViewModel<C, F>)
    ensures vm.layout == DefaultLayout()
    ensures vm.colors == DefaultColors(book)
    ensures vm.fonts == Fonts(buttonLarge)
  {
    ViewModel(DefaultLayout(), DefaultColors(book), Fonts(buttonLarge))
  }

  /** `Colors.foreground(state:vm:)`: the foreground field named after `state`. */
  function Foreground<C, F>(state: PrimaryState, vm: ViewModel<C, F>): (r: C)
    ensures state == Enabled ==> r == vm.colors.foreground.enabled
    ensures state == Pressed ==> r == vm.colors.foreground.pressed
    ensures state == Disabled ==> r == vm.colors.foreground.disabled
    ensures state == Loading ==> r == vm.colors.foreground.loading
  {
    vm.colors.foreground.Pick(state)
  }

  /** `Colors.background(state:vm:)`: the background field named after `state`. */
  function Background<C, F>(state: PrimaryState, vm: ViewModel<C, F>): (r: C)
    ensures state == Enabled ==> r == vm.colors.background.enabled
    ensures state == Pressed ==> r == vm.colors.background.pressed
    ensures state == Disabled ==> r == vm.colors.background.disabled
    ensures state == Loading ==> r == vm.colors.background.loading
  {
    vm.colors.background.Pick(state)
  }

  /** The default configuration, spelled out: height 50, corner radius 20,
      inset 15, width 300, and per state the registry's text colour in
      front of its fill colour. */
  lemma DefaultViewModelValues<C, F>(book: PrimaryButtonBook<C>, buttonLarge: F, state: PrimaryState)
    ensures DefaultViewModel(book, buttonLarge).layout == Layout(Common(50.0, 20.0, 15.0), Fixed(300.0))
    ensures Foreground(state, DefaultViewModel(book, buttonLarge)) == book.text.Pick(state)
    ensures Background(state, DefaultViewModel(book, buttonLarge)) == book.fill.Pick(state)
    ensures DefaultViewModel(book, buttonLarge).fonts.title == buttonLarge
  {
  }

  /** The foreground and background mappings are independent: each reads
      only its own colour set. */
  lemma MappingsIndependent<C, F>(vm: ViewModel<C, F>, state: PrimaryState, other: StateColors<C>)
    ensures Foreground(state, vm.(colors := vm.colors.(background := other))) == Foreground(state, vm)
    ensures Background(state, vm.(colors := vm.colors.(foreground := other))) == Background(state, vm)
  {
  }
}
