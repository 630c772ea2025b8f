/**
 * A solid button: a round button whose radius and symbol grow with a
 * hover animation. The button keeps its placement flag, rendering offset,
 * icon size and opacity, and drives its animation from hover and press
 * changes.
 *
 * The decoration the button belongs to is represented by what the button
 * reads from it: the button height at construction, whether animations are
 * enabled, whether the window is active and the title-bar colour.
 */
module Button {
  import opened Util
  import opened ButtonBase
  import opened SolidButtonTheme
  import opened SolidButtons
  import opened Animations

  /**
   * The animation after updateAnimationState(forward) with animations
   * enabled: a run in the other direction is stopped, the direction becomes
   * the requested one, and a stopped animation is started unless it already
   * rests at the end value of that direction.
   */
  function AnimationAfterUpdate(a: Animation, forward: bool): (b: Animation)
    ensures b.direction == DirectionOf(forward)
    ensures b.running <==> (a.running && a.direction == b.direction) || a.value != EndValue(b.direction)
    ensures a.running && a.direction == DirectionOf(forward) ==> b == a
    ensures InRange(a) ==> InRange(b)
  {
    var dir := DirectionOf(forward);
    var stopped := if a.running && a.direction != dir then Stop(a) else a;
    var turned := stopped.(direction := dir);
    if !turned.running && turned.value != EndValue(dir) then Start(turned) else turned
  }

  /** Whether an update in this direction (re)starts the animation, so that its value is reset. */
  predicate UpdateStarts(a: Animation, forward: bool) {
    !(a.running && a.direction == DirectionOf(forward)) && a.value != EndValue(DirectionOf(forward))
  }

  /** An animation already resting at the end of the requested direction is not started. */
  lemma AtEndNotStarted(a: Animation, forward: bool)
    requires !a.running && a.value == EndValue(DirectionOf(forward))
    ensures AnimationAfterUpdate(a, forward) == a.(direction := DirectionOf(forward))
  {
  }

  /** Asking twice for the same direction is the same as asking once. */
  lemma UpdateIdempotent(a: Animation, forward: bool)
    ensures AnimationAfterUpdate(AnimationAfterUpdate(a, forward), forward) == AnimationAfterUpdate(a, forward)
  {
  }

  /**
   * Reversing a run midway restarts it from the far end: the value jumps
   * to the start value of the new direction instead of continuing from
   * where it was.
   */
  lemma ReversalRestartsFromFarEnd(a: Animation, forward: bool)
    requires a.running && a.direction != DirectionOf(forward)
    requires a.value != EndValue(DirectionOf(forward))
    ensures AnimationAfterUpdate(a, forward).running
    ensures AnimationAfterUpdate(a, forward).value == StartValue(DirectionOf(forward))
  {
  }

  /** Whatever the starting point, after an update the animation is running or at the requested end. */
  lemma UpdateHeadsForEnd(a: Animation, forward: bool)
    ensures AnimationAfterUpdate(a, forward).running
         || AnimationAfterUpdate(a, forward).value == EndValue(DirectionOf(forward))
  {
  }

  /** A filled and/or outlined circle centred on the symbol box. */
  datatype Ellipse = Ellipse(brush: Option<ColorExpr>, pen: Option<ColorExpr>, radius: real)

  /** What draw() paints: possibly the circle, then possibly the symbol. */
  datatype DrawPlan = DrawPlan(ellipse: Option<Ellipse>, symbol: bool)

  /** The circle radius of a button: 7, grown by up to 1.5 (1 when checked) with the animation unless pressed. */
  function OuterRadius(pressed: bool, checked: bool, value: real): (r: real)
    ensures pressed ==> r == 7.0
    ensures !pressed && value == 0.0 ==> r == 7.0
    ensures !pressed && value == 1.0 ==> r == (if checked then 8.0 else 8.5)
    ensures 0.0 <= value <= 1.0 ==> 7.0 <= r <= 8.5 && (checked ==> r <= 8.0)
  {
    if pressed then 7.0 else 7.0 + (if checked then 1.0 else 1.5) * value
  }

  /** A larger animation value never gives a smaller circle. */
  lemma OuterRadiusMonotone(pressed: bool, checked: bool, v1: real, v2: real)
    requires v1 <= v2
    ensures OuterRadius(pressed, checked, v1) <= OuterRadius(pressed, checked, v2)
  {
  }

  /** The radius of the default symbol dot: 1.5, doubling to 3 with the animation. */
  function SymbolRadius(value: real): (r: real)
    ensures value == 0.0 ==> r == 1.5
    ensures value == 1.0 ==> r == 3.0
    ensures 0.0 <= value <= 1.0 ==> 1.5 <= r <= 3.0
  {
    1.5 + 1.5 * value
  }

  /** The symbol dot always fits inside the unpressed circle at the same animation value. */
  lemma SymbolInsideCircle(checked: bool, value: real)
    requires 0.0 <= value <= 1.0
    ensures SymbolRadius(value) < OuterRadius(false, checked, value)
  {
  }

  class SolidButton {
    const buttonType: ButtonType
    const variant: ButtonVariant
    var theme: Theme
    var flag: ButtonFlag
    var offset: Point
    var iconSize: Size
    var geometry: Size
    var opacity: real
    var animation: Animation
    var hovered: bool
    var pressed: bool
    var checked: bool
    /** The number of repaints requested so far. */
    var repaints: nat

    /** The animation value stays in [0, 1]. */
    ghost predicate Valid()
      reads this
    {
      InRange(animation)
    }

    /**
     * A button of the decoration's group: a square of the decoration's button
     * height, stopped at animation value 0, with the theme its kind installs.
     */
    constructor (t: ButtonType, v: ButtonVariant, buttonHeight: int)
      ensures buttonType == t && variant == v
      ensures theme == InstalledTheme(v, t)
      ensures flag == FlagNone && offset == Point(0.0, 0.0) && opacity == 0.0
      ensures geometry == Size(buttonHeight, buttonHeight) && iconSize == Size(buttonHeight, buttonHeight)
      ensures animation == Initial
      ensures !hovered && !pressed && !checked && repaints == 0
      ensures Valid()
    {
      buttonType := t;
      variant := v;
      flag := FlagNone;
      offset := Point(0.0, 0.0);
      opacity := 0.0;
      animation := Initial;
      geometry := Size(buttonHeight, buttonHeight);
      iconSize := Size(buttonHeight, buttonHeight);
      hovered, pressed, checked := false, false, false;
      repaints := 0;
      theme := Default(DefaultThemeFor(t));
      if v == ApplicationMenuButton || v == MenuButton {
        theme := IconOnly(DefaultThemeFor(t));
      }
    }

    /**
     * A standalone button, as built for a configuration preview: a plain
     * button flagged standalone, whose icon size is made invalid so that it
     * follows its geometry.
     */
    constructor Standalone(t: ButtonType, buttonHeight: int)
      ensures buttonType == t && variant == PlainButton
      ensures theme == Default(DefaultThemeFor(t))
      ensures flag == FlagStandalone && offset == Point(0.0, 0.0) && opacity == 0.0
      ensures geometry == Size(buttonHeight, buttonHeight) && iconSize == Size(-1, -1) && !iconSize.IsValid()
      ensures animation == Initial
      ensures !hovered && !pressed && !checked && repaints == 0
      ensures Valid()
    {
      buttonType := t;
      variant := PlainButton;
      flag := FlagNone;
      offset := Point(0.0, 0.0);
      opacity := 0.0;
      animation := Initial;
      geometry := Size(buttonHeight, buttonHeight);
      iconSize := Size(buttonHeight, buttonHeight);
      hovered, pressed, checked := false, false, false;
      repaints := 0;
      theme := Default(DefaultThemeFor(t));
      new;
      flag := FlagStandalone;
      iconSize := Size(-1, -1);
    }

    method SetFlag(value: ButtonFlag)
      modifies this`flag
      ensures flag == value
    {
      flag := value;
    }

    method SetOffset(value: Point)
      modifies this`offset
      ensures offset == value
    {
      offset := value;
    }

    method SetIconSize(value: Size)
      modifies this`iconSize
      ensures iconSize == value
    {
      iconSize := value;
    }

    /** Stores a new opacity and requests a repaint; setting the current value changes nothing. */
    method SetOpacity(value: real)
      modifies this`opacity, this`repaints
      ensures opacity == value
      ensures old(opacity) == value ==> repaints == old(repaints)
      ensures old(opacity) != value ==> repaints == old(repaints) + 1
    {
      if opacity == value {
        return;
      }
      opacity := value;
      repaints := repaints + 1;
    }

    /** The host marks the button checked or unchecked. */
    method SetChecked(value: bool)
      modifies this`checked
      ensures checked == value
    {
      checked := value;
    }

    /**
     * Runs the animation towards the end value (forward) or back to the start
     * value. Nothing happens when animations are disabled; when the animation
     * is (re)started its new value is passed on as the button's opacity.
     */
    method UpdateAnimationState(forward: bool, enabled: bool)
      requires Valid()
      modifies this`animation, this`opacity, this`repaints
      ensures Valid()
      ensures animation == if enabled then AnimationAfterUpdate(old(animation), forward) else old(animation)
      ensures enabled && UpdateStarts(old(animation), forward) ==>
        opacity == animation.value && repaints == old(repaints) + (if old(opacity) == animation.value then 0 else 1)
      ensures !(enabled && UpdateStarts(old(animation), forward)) ==> opacity == old(opacity) && repaints == old(repaints)
    {
      if !enabled {
        return;
      }
      var dir := DirectionOf(forward);
      if animation.running && animation.direction != dir {
        animation := Stop(animation);
      }
      animation := animation.(direction := dir);
      if !animation.running {
        if (forward && animation.value != 1.0) || (!forward && animation.value != 0.0) {
          animation := Start(animation);
          SetOpacity(animation.value);
        }
      }
    }

    /** A clock step of a running animation; the new value becomes the opacity. */
    method AnimationTick(v: real)
      requires Valid() && animation.running && 0.0 <= v <= 1.0
      modifies this`animation, this`opacity, this`repaints
      ensures Valid()
      ensures animation == Advance(old(animation), v)
      ensures opacity == v
      ensures repaints == old(repaints) + (if old(opacity) == v then 0 else 1)
    {
      animation := Advance(animation, v);
      SetOpacity(v);
    }

    /** The mouse enters or leaves the button: animate in that direction unless the button is held down. */
    method HoveredChanged(hover: bool, enabled: bool)
      requires Valid()
      modifies this`hovered, this`animation, this`opacity, this`repaints
      ensures Valid()
      ensures hovered == hover
      ensures pressed ==> animation == old(animation) && opacity == old(opacity)
      ensures !pressed && enabled ==> animation == AnimationAfterUpdate(old(animation), hover)
      ensures !enabled ==> animation == old(animation) && opacity == old(opacity)
      ensures var started := enabled && !pressed && UpdateStarts(old(animation), hover);
        && opacity == (if started then animation.value else old(opacity))
        && repaints == old(repaints) + (if started && old(opacity) != animation.value then 1 else 0)
    {
      hovered := hover;
      if !pressed {
        UpdateAnimationState(hover, enabled);
      }
    }

    /**
     * The button is pressed or released: pressing a hovered button runs the
     * animation backward, releasing a checked one runs it forward.
     */
    method PressedChanged(press: bool, enabled: bool)
      requires Valid()
      modifies this`pressed, this`animation, this`opacity, this`repaints
      ensures Valid()
      ensures pressed == press
      ensures enabled && hovered && press ==> animation == AnimationAfterUpdate(old(animation), false)
      ensures enabled && !(hovered && press) && checked && !press ==> animation == AnimationAfterUpdate(old(animation), true)
      ensures !(hovered && press) && !(checked && !press) ==> animation == old(animation) && opacity == old(opacity)
      ensures !enabled ==> animation == old(animation) && opacity == old(opacity)
      ensures var forward := !(hovered && press);
        var started := enabled && ((hovered && press) || (checked && !press)) && UpdateStarts(old(animation), forward);
        && opacity == (if started then animation.value else old(opacity))
        && repaints == old(repaints) + (if started && old(opacity) != animation.value then 1 else 0)
    {
      pressed := press;
      if hovered && press {
        UpdateAnimationState(false, enabled);
      } else if checked && !press {
        UpdateAnimationState(true, enabled);
      }
    }

    /** The state snapshot the theme colours the button from. */
    function GetState(active: bool, titleBarColor: Color): (st: ButtonState)
      reads this
      ensures st.isBeingAnimated <==> animation.running
      ensures st.isActive == active && st.titleBarColor == titleBarColor
      ensures st.isChecked == checked && st.isHovered == hovered && st.isPressed == pressed
    {
      ButtonState(active, checked, hovered, pressed, animation.running, titleBarColor)
    }

    /**
     * What draw() paints: the circle exactly when the theme shows a fill or
     * an outline, filled with the theme's fill colour only when it shows a
     * fill and outlined in its border colour only when it shows an outline;
     * then the symbol exactly when the theme shows it.
     */
    function Draw(active: bool, titleBarColor: Color): (plan: DrawPlan)
      reads this
      ensures var st := GetState(active, titleBarColor);
        && (plan.ellipse.Some? <==> ThemeShowBackground(theme, st) || ThemeShowBorder(theme, st))
        && (plan.ellipse.Some? ==>
              && (plan.ellipse.value.brush.Some? <==> ThemeShowBackground(theme, st))
              && (plan.ellipse.value.pen.Some? <==> ThemeShowBorder(theme, st))
              && (ThemeShowBackground(theme, st) ==> plan.ellipse.value.brush == Some(ThemeBackgroundColor(theme, st)))
              && (ThemeShowBorder(theme, st) ==> plan.ellipse.value.pen == Some(ThemeBorderColor(theme, st)))
              && plan.ellipse.value.radius == OuterRadius(pressed, checked, animation.value))
        && (plan.symbol <==> ThemeShowSymbol(theme, st))
    {
      var st := GetState(active, titleBarColor);
      var radius := OuterRadius(pressed, checked, animation.value);
      var pen := if ThemeShowBorder(theme, st) then Some(ThemeBorderColor(theme, st)) else None;
      var brush := if ThemeShowBackground(theme, st) then Some(ThemeBackgroundColor(theme, st)) else None;
      var ellipse := if ThemeShowBackground(theme, st) || ThemeShowBorder(theme, st)
        then Some(Ellipse(brush, pen, radius)) else None;
      DrawPlan(ellipse, ThemeShowSymbol(theme, st))
    }

    /** The offset paint() translates by: all of it for the first button of a group, else only the vertical part. */
    function PaintTranslation(): (p: Point)
      reads this
      ensures flag == FlagFirstInList ==> p == offset
      ensures flag != FlagFirstInList ==> p.x == 0.0 && p.y == offset.y
    {
      if flag == FlagFirstInList then offset else Point(0.0, offset.y)
    }

    /** Before painting, an invalid icon size is replaced by the button's geometry. */
    method PrepareIconSize()
      modifies this`iconSize
      ensures old(iconSize).IsValid() ==> iconSize == old(iconSize)
      ensures !old(iconSize).IsValid() ==> iconSize == geometry
    {
      if !iconSize.IsValid() {
        iconSize := geometry;
      }
    }
  }

  /** A menu or application-menu button never paints a circle and always paints its symbol. */
  lemma MenuButtonsDrawOnlySymbol(b: SolidButton, active: bool, titleBarColor: Color)
    requires b.theme.IconOnly?
    ensures b.Draw(active, titleBarColor).ellipse.None?
    ensures b.Draw(active, titleBarColor).symbol
  {
  }

  /** A pressed default-themed button is filled but not outlined, at the base radius 7. */
  lemma PressedButtonHasNoOutline(b: SolidButton, active: bool, titleBarColor: Color)
    requires b.theme.Default? && b.pressed
    ensures b.Draw(active, titleBarColor).ellipse.Some?
    ensures b.Draw(active, titleBarColor).ellipse.value.pen.None?
    ensures b.Draw(active, titleBarColor).ellipse.value.radius == 7.0
  {
  }
}
