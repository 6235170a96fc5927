/** The interaction states the button models switch over, and the
    four-colour record that is picked from by state. */
module ButtonState {

  /** The four states of a primary button (enabled, pressed, disabled,
      loading), shared by the flexible and the fixed primary button. */
  datatype PrimaryState = Enabled | Pressed | Disabled | Loading

  /** The three states of a plain button. */
  datatype PlainState = PlainEnabled | PlainPressed | PlainDisabled

  /** Every primary state, each once. */
  const AllPrimaryStates: seq<PrimaryState> := [Enabled, Pressed, Disabled, Loading]

  /** One colour per primary state. */
  datatype StateColors<C> = StateColors(enabled: C, pressed: C, disabled: C, loading: C) {

    /** The colour for `state`: the field named after it. */
    function Pick(state: PrimaryState): (r: C)
      ensures state == Enabled ==> r == enabled
      ensures state == Pressed ==> r == pressed
      ensures state == Disabled ==> r == disabled
      ensures state == Loading ==> r == loading
    {
      match state
      case Enabled => enabled
      case Pressed => pressed
      case Disabled => disabled
      case Loading => loading
    }

    /** The four colours, pairwise different. */
    ghost predicate AllDistinct() {
      enabled != pressed && enabled != disabled && enabled != loading &&
      pressed != disabled && pressed != loading && disabled != loading
    }
  }

  /** Each state reads only its own field: overwriting the field of one
      state changes the colour of that state and of no other. */
  lemma PickReadsOwnField<C>(c: StateColors<C>, state: PrimaryState, x: C)
    ensures c.(enabled := x).Pick(state) == if state == Enabled then x else c.Pick(state)
    ensures c.(pressed := x).Pick(state) == if state == Pressed then x else c.Pick(state)
    ensures c.(disabled := x).Pick(state) == if state == Disabled then x else c.Pick(state)
    ensures c.(loading := x).Pick(state) == if state == Loading then x else c.Pick(state)
  {
  }

  /** Different states pick different fields: when the four colours differ,
      the colour determines the state. */
  lemma PickInjective<C>(c: StateColors<C>, s1: PrimaryState, s2: PrimaryState)
    requires c.AllDistinct()
    requires c.Pick(s1) == c.Pick(s2)
    ensures s1 == s2
  {
  }

  /** Every field is reached: the colours picked over all states are
      exactly the four fields. */
  lemma PickCoversFields<C>(c: StateColors<C>)
    ensures (set s | s in AllPrimaryStates :: c.Pick(s)) == {c.enabled, c.pressed, c.disabled, c.loading}
  {
    var picked := set s | s in AllPrimaryStates :: c.Pick(s);
    assert c.Pick(Enabled) in picked;
    assert c.Pick(Pressed) in picked;
    assert c.Pick(Disabled) in picked;
    assert c.Pick(Loading) in picked;
  }

  /** The shared colour registry's primary-button entries (text, fill and
      border colour per state); the registry itself is not modelled, so its
      colours are supplied as this value. */
  datatype PrimaryButtonBook<C> = PrimaryButtonBook(text: StateColors<C>, fill: StateColors<C>, border: StateColors<C>)
}
