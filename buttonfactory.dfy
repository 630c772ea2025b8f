/**
 * The button factory: which button class the decoration builds for each
 * button type, and the plugin entry point that builds standalone buttons.
 */
module ButtonFactory {
  import opened Util
  import opened ButtonBase
  import opened SolidButtonTheme
  import opened SolidButtons
  import opened Button

  /**
   * The button class built for a type: the five window controls with their
   * own symbol and the two menu buttons get their own class; every other
   * type, known or not, gets a plain solid button.
   */
  function VariantFor(t: ButtonType): (v: ButtonVariant)
    ensures v == PlainButton <==> t !in {Close, Maximize, Minimize, KeepAbove, KeepBelow, ApplicationMenu, Menu}
    ensures v != PlainButton ==> HandledType(v) == Some(t)
  {
    match t
    case Close => CloseButton
    case Maximize => MaximizeButton
    case Minimize => MinimizeButton
    case KeepAbove => KeepAboveButton
    case KeepBelow => KeepBelowButton
    case ApplicationMenu => ApplicationMenuButton
    case Menu => MenuButton
    case _ => PlainButton
  }

  /** The one type a specialised class is built for; none for the plain class. */
  function HandledType(v: ButtonVariant): (t: Option<ButtonType>)
    ensures t.None? <==> v == PlainButton
  {
    match v
    case CloseButton => Some(Close)
    case MaximizeButton => Some(Maximize)
    case MinimizeButton => Some(Minimize)
    case KeepAboveButton => Some(KeepAbove)
    case KeepBelowButton => Some(KeepBelow)
    case ApplicationMenuButton => Some(ApplicationMenu)
    case MenuButton => Some(Menu)
    case PlainButton => None
  }

  /** Every specialised class is built for exactly one type. */
  lemma SpecialisedVariantsInjective(t1: ButtonType, t2: ButtonType)
    requires VariantFor(t1) == VariantFor(t2) && VariantFor(t1) != PlainButton
    ensures t1 == t2
  {
    assert HandledType(VariantFor(t1)) == Some(t1);
    assert HandledType(VariantFor(t2)) == Some(t2);
  }

  /** Each specialised class comes from its type, and every class is reached. */
  lemma VariantForOnto(v: ButtonVariant)
    ensures exists t :: VariantFor(t) == v
  {
    match v
    case PlainButton => assert VariantFor(Shade) == v;
    case _ => assert VariantFor(HandledType(v).value) == v;
  }

  /**
   * The theme of a factory-built button is icon-only exactly for the
   * application-menu and menu types, and the default theme of its type
   * otherwise.
   */
  lemma FactoryThemes(t: ButtonType)
    ensures InstalledTheme(VariantFor(t), t).IconOnly? <==> t in {ApplicationMenu, Menu}
    ensures InstalledTheme(VariantFor(t), t).d == DefaultThemeFor(t)
  {
  }

  /** Builds the button for a slot of the decoration's button group; it never fails. */
  method GetButtonGroupInstance(t: ButtonType, buttonHeight: int) returns (button: SolidButton)
    ensures fresh(button)
    ensures button.buttonType == t && button.variant == VariantFor(t)
    ensures button.theme == InstalledTheme(VariantFor(t), t)
    ensures button.flag == FlagNone && button.Valid()
  {
    button := new SolidButton(t, VariantFor(t), buttonHeight);
  }

  /** The plugin entry point: always a plain standalone button, whatever type it is asked for. */
  method GetPluginInstance(t: ButtonType, buttonHeight: int) returns (button: SolidButton)
    ensures fresh(button)
    ensures button.buttonType == t && button.variant == PlainButton
    ensures button.flag == FlagStandalone && !button.iconSize.IsValid()
    ensures button.Valid()
  {
    button := new SolidButton.Standalone(t, buttonHeight);
  }
}
