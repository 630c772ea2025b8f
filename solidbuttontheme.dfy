/**
 * The default colouring of the solid buttons: a base colour per button
 * type, and the background, border and symbol colours and visibilities a
 * button gets from the state it is drawn in.
 */
module SolidButtonTheme {
  import opened Util
  import opened ButtonBase

  /** The snapshot of a button's state that a theme colours it from (the icon is not modelled). */
  datatype ButtonState = ButtonState(
    isActive: bool,
    isChecked: bool,
    isHovered: bool,
    isPressed: bool,
    isBeingAnimated: bool,
    titleBarColor: Color)

  /** A button is live when its window is active or the button is hovered, pressed or animating. */
  predicate IsLive(st: ButtonState) {
    st.isActive || st.isHovered || st.isPressed || st.isBeingAnimated
  }

  /** The default theme: a base colour and whether a symbol is drawn on the button. */
  datatype DefaultTheme = DefaultTheme(base: Color, hasSymbol: bool)

  const CloseColor := Color(224, 56, 62)
  const MaximizeColor := Color(252, 184, 39)
  const MinimizeColor := Color(98, 186, 70)
  const KeepAboveColor := Color(51, 149, 255)
  const KeepBelowColor := Color(149, 61, 150)
  const ContextHelpColor := Color(248, 79, 158)
  const OrangeColor := Color(247, 130, 27)

  /**
   * The theme the default constructor builds for a button type. The seven
   * window controls get their own colour and no symbol; every other type,
   * known or not, gets orange with a symbol.
   */
  function DefaultThemeFor(t: ButtonType): (th: DefaultTheme)
    ensures th.hasSymbol <==> t in {Menu, ApplicationMenu, OnAllDesktops, Custom, Spacer}
    ensures th.hasSymbol ==> th.base == OrangeColor
  {
    match t
    case Close => DefaultTheme(CloseColor, false)
    case Maximize => DefaultTheme(MaximizeColor, false)
    case Minimize => DefaultTheme(MinimizeColor, false)
    case KeepAbove => DefaultTheme(KeepAboveColor, false)
    case KeepBelow => DefaultTheme(KeepBelowColor, false)
    case ContextHelp => DefaultTheme(ContextHelpColor, false)
    case Shade => DefaultTheme(OrangeColor, false)
    case _ => DefaultTheme(OrangeColor, true)
  }

  /** The base colour table, entry by entry. */
  lemma BaseColorTable()
    ensures DefaultThemeFor(Close) == DefaultTheme(Color(224, 56, 62), false)
    ensures DefaultThemeFor(Maximize) == DefaultTheme(Color(252, 184, 39), false)
    ensures DefaultThemeFor(Minimize) == DefaultTheme(Color(98, 186, 70), false)
    ensures DefaultThemeFor(KeepAbove) == DefaultTheme(Color(51, 149, 255), false)
    ensures DefaultThemeFor(KeepBelow) == DefaultTheme(Color(149, 61, 150), false)
    ensures DefaultThemeFor(ContextHelp) == DefaultTheme(Color(248, 79, 158), false)
    ensures DefaultThemeFor(Shade) == DefaultTheme(Color(247, 130, 27), false)
    ensures forall t :: t in {Menu, ApplicationMenu, OnAllDesktops, Custom, Spacer} ==>
      DefaultThemeFor(t) == DefaultTheme(Color(247, 130, 27), true)
  {
  }

  /**
   * Two different window controls without a symbol never share a base
   * colour, except that Shade's is the orange of the symbol-bearing types.
   */
  lemma BaseColorsDistinct(t1: ButtonType, t2: ButtonType)
    requires t1 != t2
    requires !DefaultThemeFor(t1).hasSymbol && !DefaultThemeFor(t2).hasSymbol
    ensures DefaultThemeFor(t1).base != DefaultThemeFor(t2).base
  {
  }

  /**
   * The fill of the button. A live button starts from its base colour:
   * pressed darkens it, otherwise animating lightens it, otherwise hovering
   * an unchecked button lightens it more; checked then darkens it, and a dark
   * title bar lightens the result. A button that is not live is a grey
   * derived from the title bar, tinted with it, lightened on a dark title bar
   * and darkened when checked.
   */
  function BackgroundColor(th: DefaultTheme, st: ButtonState): (c: ColorExpr)
    ensures IsLive(st) ==> Sources(c) == {th.base}
    ensures !IsLive(st) ==> Sources(c) == {InactiveGrayFrom(st.titleBarColor), st.titleBarColor}
    // A live, unchecked button on a light title bar, state by state; `CheckedDarkens`
    // and `DarkTitleBarLightens` give the checked and dark-title-bar variants.
    ensures IsLive(st) && !st.isChecked && IsLight(st.titleBarColor) && st.isPressed ==>
      c == Darker(Rgb(th.base), 105)
    ensures IsLive(st) && !st.isChecked && IsLight(st.titleBarColor) && !st.isPressed && st.isBeingAnimated ==>
      c == Lighter(Rgb(th.base), 105)
    ensures IsLive(st) && !st.isChecked && IsLight(st.titleBarColor) && !st.isPressed && !st.isBeingAnimated
            && st.isHovered ==>
      c == Lighter(Rgb(th.base), 110)
    ensures IsLive(st) && !st.isChecked && IsLight(st.titleBarColor) && !st.isPressed && !st.isBeingAnimated
            && !st.isHovered ==>
      c == Rgb(th.base)
    // A live, checked button on a light title bar: the state colour darkened by 130,
    // hover playing no part.
    ensures IsLive(st) && st.isChecked && IsLight(st.titleBarColor) && st.isPressed ==>
      c == Darker(Darker(Rgb(th.base), 105), 130)
    ensures IsLive(st) && st.isChecked && IsLight(st.titleBarColor) && !st.isPressed && st.isBeingAnimated ==>
      c == Darker(Lighter(Rgb(th.base), 105), 130)
    ensures IsLive(st) && st.isChecked && IsLight(st.titleBarColor) && !st.isPressed && !st.isBeingAnimated ==>
      c == Darker(Rgb(th.base), 130)
    // An idle button: the inactive grey tinted with the title-bar colour, lightened
    // on a dark title bar and darkened when checked.
    ensures !IsLive(st) && IsLight(st.titleBarColor) ==>
      var tinted := Tint(Rgb(InactiveGrayFrom(st.titleBarColor)), st.titleBarColor);
      c == if st.isChecked then Darker(tinted, 135) else tinted
    ensures !IsLive(st) && !IsLight(st.titleBarColor) ==>
      var lightened := Lighter(Tint(Rgb(InactiveGrayFrom(st.titleBarColor)), st.titleBarColor), 130);
      c == if st.isChecked then Darker(lightened, 135) else lightened
  {
    var tb := st.titleBarColor;
    if IsLive(st) then
      var stateColor :=
        if st.isPressed then Darker(Rgb(th.base), 105)
        else if st.isBeingAnimated then Lighter(Rgb(th.base), 105)
        else if st.isHovered && !st.isChecked then Lighter(Rgb(th.base), 110)
        else Rgb(th.base);
      var checkedColor := if st.isChecked then Darker(stateColor, 130) else stateColor;
      assert Sources(stateColor) == {th.base};
      assert Sources(checkedColor) == {th.base};
      if !IsLight(tb) then Lighter(checkedColor, 115) else checkedColor
    else
      var tinted := Tint(Rgb(InactiveGrayFrom(tb)), tb);
      var shaded := if !IsLight(tb) then Lighter(tinted, 130) else tinted;
      assert Sources(shaded) == Sources(tinted) == {InactiveGrayFrom(tb), tb};
      if st.isChecked then Darker(shaded, 135) else shaded
  }

  /** A button that is not live is coloured from the title bar alone, never from its own base colour. */
  lemma InactiveBackgroundIgnoresBase(th1: DefaultTheme, th2: DefaultTheme, st: ButtonState)
    requires !IsLive(st)
    ensures BackgroundColor(th1, st) == BackgroundColor(th2, st)
  {
  }

  /** Being pressed overrides animating and hovering. */
  lemma PressedTakesPrecedence(th: DefaultTheme, st1: ButtonState, st2: ButtonState)
    requires st1.isPressed && st2.isPressed
    requires st1.isChecked == st2.isChecked && st1.titleBarColor == st2.titleBarColor
    ensures BackgroundColor(th, st1) == BackgroundColor(th, st2)
  {
  }

  /** When not pressed, animating overrides hovering. */
  lemma AnimatingTakesPrecedenceOverHover(th: DefaultTheme, st1: ButtonState, st2: ButtonState)
    requires !st1.isPressed && !st2.isPressed && st1.isBeingAnimated && st2.isBeingAnimated
    requires st1.isChecked == st2.isChecked && st1.titleBarColor == st2.titleBarColor
    ensures BackgroundColor(th, st1) == BackgroundColor(th, st2)
  {
  }

  /** Hovering does not lighten a checked button of an active window. */
  lemma CheckedIgnoresHover(th: DefaultTheme, st: ButtonState)
    requires st.isActive && st.isChecked && !st.isPressed && !st.isBeingAnimated
    ensures BackgroundColor(th, st) == BackgroundColor(th, st.(isHovered := !st.isHovered))
  {
  }

  /**
   * On a light title bar, checking a live button that is pressed, animating
   * or not hovered darkens its fill by the factor 130.
   */
  lemma CheckedDarkens(th: DefaultTheme, st: ButtonState)
    requires IsLive(st) && IsLight(st.titleBarColor)
    requires st.isPressed || st.isBeingAnimated || !st.isHovered
    ensures BackgroundColor(th, st.(isChecked := true)) == Darker(BackgroundColor(th, st.(isChecked := false)), 130)
  {
  }

  /** For a live button a dark title bar lightens exactly what a light one would give by the factor 115. */
  lemma DarkTitleBarLightens(th: DefaultTheme, st: ButtonState, light: Color, dark: Color)
    requires IsLive(st) && IsLight(light) && !IsLight(dark)
    ensures BackgroundColor(th, st.(titleBarColor := dark))
         == Lighter(BackgroundColor(th, st.(titleBarColor := light)), 115)
  {
  }

  /** The outline: the fill darkened on a light title bar, lightened on a dark one. */
  function BorderColor(th: DefaultTheme, st: ButtonState): (c: ColorExpr)
    ensures Sources(c) == Sources(BackgroundColor(th, st))
    ensures (c.Darker? || c.Lighter?) && c.inner == BackgroundColor(th, st) && c.factor == 130
  {
    var fill := BackgroundColor(th, st);
    if IsLight(st.titleBarColor) then Darker(fill, 130) else Lighter(fill, 130)
  }

  /** The outline contrasts with the title bar: darker on light ones, lighter on dark ones. */
  lemma BorderFollowsTitleBar(th: DefaultTheme, st: ButtonState)
    ensures IsLight(st.titleBarColor) ==> BorderColor(th, st) == Darker(BackgroundColor(th, st), 130)
    ensures !IsLight(st.titleBarColor) ==> BorderColor(th, st) == Lighter(BackgroundColor(th, st), 130)
  {
  }

  /** The symbol is drawn in the title-bar colour on a live button, else in the lightened fill. */
  function SymbolColor(th: DefaultTheme, st: ButtonState): (c: ColorExpr)
    ensures IsLive(st) ==> c == Rgb(st.titleBarColor)
    ensures !IsLive(st) ==> c == Lighter(BackgroundColor(th, st), 150)
    ensures !IsLive(st) ==> Sources(c) == {InactiveGrayFrom(st.titleBarColor), st.titleBarColor}
  {
    if !st.isActive && !st.isHovered && !st.isPressed && !st.isBeingAnimated then
      Lighter(BackgroundColor(th, st), 150)
    else
      Rgb(st.titleBarColor)
  }

  /** The default theme always fills the button. */
  function ShowBackground(th: DefaultTheme, st: ButtonState): (shown: bool)
    ensures shown
  {
    true
  }

  /** The outline is drawn unless the button is pressed. */
  function ShowBorder(th: DefaultTheme, st: ButtonState): (shown: bool)
    ensures shown <==> !st.isPressed
  {
    !st.isPressed
  }

  /**
   * A symbol is only ever drawn on a button whose theme has one, never on a
   * pressed button that is not animating, and then exactly when the button
   * is hovered, checked in an active window, or animating.
   */
  function ShowSymbol(th: DefaultTheme, st: ButtonState): (shown: bool)
    ensures !th.hasSymbol ==> !shown
    ensures st.isPressed && !st.isBeingAnimated ==> !shown
    ensures shown ==> st.isHovered || (st.isChecked && st.isActive) || st.isBeingAnimated
    ensures th.hasSymbol && st.isBeingAnimated ==> shown
    ensures th.hasSymbol && !st.isPressed && (st.isHovered || (st.isChecked && st.isActive)) ==> shown
  {
    if !th.hasSymbol then false
    else if st.isPressed && !st.isBeingAnimated then false
    else st.isHovered || (st.isChecked && st.isActive) || st.isBeingAnimated
  }

  /** A shown symbol is always on a live button, so it is drawn in the title-bar colour. */
  lemma ShownSymbolUsesTitleBarColor(th: DefaultTheme, st: ButtonState)
    requires ShowSymbol(th, st)
    ensures SymbolColor(th, st) == Rgb(st.titleBarColor)
  {
  }
}
