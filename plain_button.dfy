/** The configuration of the plain (borderless) button: hit-box extension,
    text colours and opacities per state, fonts, their defaults, and the
    state-to-colour and state-to-opacity mappings.
    A Swift default argument is modelled as an `Option` parameter: `None`
    means the argument was omitted and the default applies. */
module PlainButton {
  import opened Wrappers
  import opened ButtonState

  /** How far the tappable area extends beyond the content. */
  datatype Layout = Layout(hitBoxExtendX: real, hitBoxExtendY: real)

  /** `Layout(hitBoxExtendX:hitBoxExtendY:)` with defaults 15 and 5. */
  function LayoutInit(hitBoxExtendX: Option<real>, hitBoxExtendY: Option<real>): (l: Layout)
    ensures hitBoxExtendX.Some? ==> l.hitBoxExtendX == hitBoxExtendX.value
    ensures hitBoxExtendY.Some? ==> l.hitBoxExtendY == hitBoxExtendY.value
    ensures hitBoxExtendX.None? ==> l.hitBoxExtendX == 15.0
    ensures hitBoxExtendY.None? ==> l.hitBoxExtendY == 5.0
  {
    Layout(hitBoxExtendX.GetOr(15.0), hitBoxExtendY.GetOr(5.0))
  }

  /** The colour registry's plain-button text colours. */
  datatype PlainButtonBook<C> = PlainButtonBook(enabled: C, pressed: C, disabled: C)

  /** Text colour per state and the opacities of the pressed and disabled states. */
  datatype ForegroundColors<C> = ForegroundColors(enabled: C, pressed: C, disabled: C,
                                                  pressedOpacity: real, disabledOpacity: real)

  /** `ForegroundColors(enabled:pressed:disabled:pressedOpacity:disabledOpacity:)`
      with the registry's colours and opacities 0.5 as defaults. */
  function ForegroundColorsInit<C>(enabled: Option<C>, pressed: Option<C>, disabled: Option<C>,
                                   pressedOpacity: Option<real>, disabledOpacity: Option<real>,
                                   book: PlainButtonBook<C>): (f: ForegroundColors<C>)
    ensures enabled.Some? ==> f.enabled == enabled.value
    ensures pressed.Some? ==> f.pressed == pressed.value
    ensures disabled.Some? ==> f.disabled == disabled.value
    ensures pressedOpacity.Some? ==> f.pressedOpacity == pressedOpacity.value
    ensures disabledOpacity.Some? ==> f.disabledOpacity == disabledOpacity.value
    ensures enabled.None? ==> f.enabled == book.enabled
    ensures pressed.None? ==> f.pressed == book.pressed
    ensures disabled.None? ==> f.disabled == book.disabled
    ensures pressedOpacity.None? ==> f.pressedOpacity == 0.5
    ensures disabledOpacity.None? ==> f.disabledOpacity == 0.5
  {
    ForegroundColors(enabled.GetOr(book.enabled), pressed.GetOr(book.pressed), disabled.GetOr(book.disabled),
                     pressedOpacity.GetOr(0.5), disabledOpacity.GetOr(0.5))
  }

  datatype Colors<C> = Colors(foreground: ForegroundColors<C>) {

    /** The text colour of `state`: the field named after it. */
    function ForegroundColor(state: PlainState): (r: C)
      ensures state == PlainEnabled ==> r == foreground.enabled
      ensures state == PlainPressed ==> r == foreground.pressed
      ensures state == PlainDisabled ==> r == foreground.disabled
    {
      match state
      case PlainEnabled => foreground.enabled
      case PlainPressed => foreground.pressed
      case PlainDisabled => foreground.disabled
    }

    /** The text opacity of `state`: full when enabled, otherwise the
        configured opacity of that state. */
    function ForegroundOpacity(state: PlainState): (r: real)
      ensures state == PlainEnabled ==> r == 1.0
      ensures state == PlainPressed ==> r == foreground.pressedOpacity
      ensures state == PlainDisabled ==> r == foreground.disabledOpacity
    {
      match state
      case PlainEnabled => 1.0
      case PlainPressed => foreground.pressedOpacity
      case PlainDisabled => foreground.disabledOpacity
    }
  }

  /** `Colors(foreground:)`, defaulting to `ForegroundColors()`. */
  function ColorsInit<C>(foreground: Option<ForegroundColors<C>>, book: PlainButtonBook<C>): (c: Colors<C>)
    ensures foreground.Some? ==> c.foreground == foreground.value
    ensures foreground.None? ==> c.foreground == ForegroundColorsInit(None, None, None, None, None, book)
  {
    Colors(foreground.GetOr(ForegroundColorsInit(None, None, None, None, None, book)))
  }

  datatype Fonts<F> = Fonts(title: F)

  datatype Model<C, F> = Model(layout: Layout, colors: Colors<C>, fonts: Fonts<F>)

  /** `VPlainButtonStandardModel(layout:colors:fonts:)`: supplied parts are
      stored unchanged, omitted ones take their defaults. */
  function ModelInit<C, F>(layout: Option<Layout>, colors: Option<Colors<C>>, fonts: Option<Fonts<F>>,
                           book: PlainButtonBook<C>, buttonLarge: F): (m: Model<C, F>)
    ensures layout.Some? ==> m.layout == layout.value
    ensures colors.Some? ==> m.colors == colors.value
    ensures fonts.Some? ==> m.fonts == fonts.value
    ensures layout.None? ==> m.layout == LayoutInit(None, None)
    ensures colors.None? ==> m.colors == ColorsInit(None, book)
    ensures fonts.None? ==> m.fonts == Fonts(buttonLarge)
  {
    Model(layout.GetOr(LayoutInit(None, None)), colors.GetOr(ColorsInit(None, book)), fonts.GetOr(Fonts(buttonLarge)))
  }

  /** The default hit box extends 15 horizontally and 5 vertically. */
  lemma DefaultLayout()
    ensures LayoutInit(None, None) == Layout(15.0, 5.0)
  {
  }

  /** Each argument is defaulted on its own: supplying one argument changes
      that field of the default and no other. */
  lemma ArgumentsIndependent<C>(x: real, c: C, book: PlainButtonBook<C>)
    ensures LayoutInit(Some(x), None) == LayoutInit(None, None).(hitBoxExtendX := x)
    ensures LayoutInit(None, Some(x)) == LayoutInit(None, None).(hitBoxExtendY := x)
    ensures ForegroundColorsInit(Some(c), None, None, None, None, book) ==
            ForegroundColorsInit(None, None, None, None, None, book).(enabled := c)
    ensures ForegroundColorsInit(None, Some(c), None, None, None, book) ==
            ForegroundColorsInit(None, None, None, None, None, book).(pressed := c)
    ensures ForegroundColorsInit(None, None, Some(c), None, None, book) ==
            ForegroundColorsInit(None, None, None, None, None, book).(disabled := c)
    ensures ForegroundColorsInit(None, None, None, Some(x), None, book) ==
            ForegroundColorsInit(None, None, None, None, None, book).(pressedOpacity := x)
    ensures ForegroundColorsInit(None, None, None, None, Some(x), book) ==
            ForegroundColorsInit(None, None, None, None, None, book).(disabledOpacity := x)
  {
  }

  /** With default colours the pressed and the disabled text are both drawn
      at half opacity, the enabled text at full opacity, and each state
      shows the registry's colour of that state. */
  lemma DefaultForeground<C>(book: PlainButtonBook<C>, state: PlainState)
    ensures ColorsInit(None, book).ForegroundOpacity(state) == if state == PlainEnabled then 1.0 else 0.5
    ensures ColorsInit(None, book).ForegroundColor(state) ==
              match state
              case PlainEnabled => book.enabled
              case PlainPressed => book.pressed
              case PlainDisabled => book.disabled
  {
  }

  /** Opacities stay within [0, 1] when the configured ones do. */
  lemma ForegroundOpacityBounded<C>(c: Colors<C>, state: PlainState)
    requires 0.0 <= c.foreground.pressedOpacity <= 1.0
    requires 0.0 <= c.foreground.disabledOpacity <= 1.0
    ensures 0.0 <= c.ForegroundOpacity(state) <= 1.0
  {
  }
}
