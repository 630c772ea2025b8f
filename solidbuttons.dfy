/**
 * The concrete buttons: the icon-only theme that the menu buttons install,
 * the symbol geometry that shrinks and grows with the animation value, the
 * two triangles of the maximise symbol, and which theme each button kind
 * starts with.
 *
 * Symbols are drawn in an 18 x 18 box with the origin at its top-left corner.
 */
module SolidButtons {
  import opened Util
  import opened ButtonBase
  import opened SolidButtonTheme

  /** The two themes a button can carry; both are built from the default table. */
  datatype Theme = Default(d: DefaultTheme) | IconOnly(d: DefaultTheme)

  /** The icon-only theme's symbol colour: near black on a light title bar, near white on a dark one. */
  function IconOnlySymbolColor(st: ButtonState): (c: Color)
    ensures IsLight(st.titleBarColor) ==> c == Color(32, 32, 32)
    ensures !IsLight(st.titleBarColor) ==> c == Color(240, 240, 240)
  {
    if IsLight(st.titleBarColor) then Color(32, 32, 32) else Color(240, 240, 240)
  }

  /** The icon-only symbol always contrasts with the title bar: it is light exactly when the bar is not. */
  lemma IconOnlySymbolContrasts(st: ButtonState)
    ensures IsLight(IconOnlySymbolColor(st)) <==> !IsLight(st.titleBarColor)
  {
  }

  /** The fill a theme paints; the icon-only theme keeps the default one but never shows it. */
  function ThemeBackgroundColor(th: Theme, st: ButtonState): (c: ColorExpr)
    ensures c == BackgroundColor(th.d, st)
  {
    BackgroundColor(th.d, st)
  }

  function ThemeBorderColor(th: Theme, st: ButtonState): (c: ColorExpr)
    ensures c == BorderColor(th.d, st)
  {
    BorderColor(th.d, st)
  }

  /** The icon-only theme keeps the fill and outline colours of the default theme it extends. */
  lemma IconOnlyInheritsColours(d: DefaultTheme, st: ButtonState)
    ensures ThemeBackgroundColor(IconOnly(d), st) == ThemeBackgroundColor(Default(d), st)
    ensures ThemeBorderColor(IconOnly(d), st) == ThemeBorderColor(Default(d), st)
  {
  }

  function ThemeSymbolColor(th: Theme, st: ButtonState): (c: ColorExpr)
    ensures th.IconOnly? ==> c == Rgb(IconOnlySymbolColor(st))
    ensures th.Default? ==> c == SymbolColor(th.d, st)
  {
    match th
    case Default(d) => SymbolColor(d, st)
    case IconOnly(_) => Rgb(IconOnlySymbolColor(st))
  }

  function ThemeShowBackground(th: Theme, st: ButtonState): (shown: bool)
    ensures shown <==> th.Default?
  {
    match th
    case Default(d) => ShowBackground(d, st)
    case IconOnly(_) => false
  }

  function ThemeShowBorder(th: Theme, st: ButtonState): (shown: bool)
    ensures th.IconOnly? ==> !shown
    ensures th.Default? ==> (shown <==> !st.isPressed)
  {
    match th
    case Default(d) => ShowBorder(d, st)
    case IconOnly(_) => false
  }

  function ThemeShowSymbol(th: Theme, st: ButtonState): (shown: bool)
    ensures th.IconOnly? ==> shown
    ensures th.Default? ==> shown == ShowSymbol(th.d, st)
  {
    match th
    case Default(d) => ShowSymbol(d, st)
    case IconOnly(_) => true
  }

  /** The icon-only theme shows its symbol and nothing else, in every state. */
  lemma IconOnlyShowsOnlySymbol(d: DefaultTheme, st: ButtonState)
    ensures !ThemeShowBackground(IconOnly(d), st) && !ThemeShowBorder(IconOnly(d), st)
    ensures ThemeShowSymbol(IconOnly(d), st)
  {
  }

  /**
   * The animated position of a symbol point: q + v when the animation value
   * t is 0, moving linearly to q when t is 1.
   */
  function Scale(q: Point, v: Point, t: real): (p: Point)
    ensures p.x - q.x == v.x * (1.0 - t) && p.y - q.y == v.y * (1.0 - t)
  {
    Point((q.x + v.x) - v.x * t, (q.y + v.y) - v.y * t)
  }

  /** The end points of the interpolation. */
  lemma ScaleEnds(q: Point, v: Point)
    ensures Scale(q, v, 0.0) == Point(q.x + v.x, q.y + v.y)
    ensures Scale(q, v, 1.0) == q
  {
  }

  /** Scaling by a factor in [0, 1] keeps a number between 0 and itself. */
  lemma ShrinkBetween(a: real, s: real)
    requires 0.0 <= s <= 1.0
    ensures a >= 0.0 ==> 0.0 <= a * s <= a
    ensures a <= 0.0 ==> a <= a * s <= 0.0
  {
    assert a * s - a == -(a * (1.0 - s));
    if a >= 0.0 {
      assert a * (1.0 - s) >= 0.0;
    } else {
      assert (-a) * (1.0 - s) >= 0.0;
      assert (-a) * s >= 0.0;
    }
  }

  /** For t in [0, 1] the point stays on the segment from q + v to q, coordinate by coordinate. */
  lemma ScaleBetween(q: Point, v: Point, t: real)
    requires 0.0 <= t <= 1.0
    ensures v.x >= 0.0 ==> q.x <= Scale(q, v, t).x <= q.x + v.x
    ensures v.x <= 0.0 ==> q.x + v.x <= Scale(q, v, t).x <= q.x
    ensures v.y >= 0.0 ==> q.y <= Scale(q, v, t).y <= q.y + v.y
    ensures v.y <= 0.0 ==> q.y + v.y <= Scale(q, v, t).y <= q.y
  {
    ShrinkBetween(v.x, 1.0 - t);
    ShrinkBetween(v.y, 1.0 - t);
  }

  /** A straight stroke between two points. */
  datatype Line = Line(from: Point, to: Point)

  /** The point lies inside the rectangle [lo, hi] x [lo, hi]. */
  predicate InSquare(p: Point, lo: real, hi: real) {
    lo <= p.x <= hi && lo <= p.y <= hi
  }

  /** The close symbol: the two diagonals of an X that grows out of the centre (9, 9). */
  function CloseSymbol(t: real): (lines: seq<Line>)
    ensures |lines| == 2
  {
    [ Line(Scale(Point(6.0, 6.0), Point(3.0, 3.0), t), Scale(Point(12.0, 12.0), Point(-3.0, -3.0), t)),
      Line(Scale(Point(6.0, 12.0), Point(3.0, -3.0), t), Scale(Point(12.0, 6.0), Point(-3.0, 3.0), t)) ]
  }

  /** At t = 0 the X is a single point at the centre; at t = 1 it spans the square [6, 12]. */
  lemma CloseSymbolEnds()
    ensures forall l :: l in CloseSymbol(0.0) ==> l.from == Point(9.0, 9.0) && l.to == Point(9.0, 9.0)
    ensures CloseSymbol(1.0) == [Line(Point(6.0, 6.0), Point(12.0, 12.0)), Line(Point(6.0, 12.0), Point(12.0, 6.0))]
  {
  }

  /** While animating the X stays inside the square [6, 12], well within the 18 x 18 box. */
  lemma CloseSymbolInBox(t: real)
    requires 0.0 <= t <= 1.0
    ensures forall l :: l in CloseSymbol(t) ==> InSquare(l.from, 6.0, 12.0) && InSquare(l.to, 6.0, 12.0)
  {
    ScaleBetween(Point(6.0, 6.0), Point(3.0, 3.0), t);
    ScaleBetween(Point(12.0, 12.0), Point(-3.0, -3.0), t);
    ScaleBetween(Point(6.0, 12.0), Point(3.0, -3.0), t);
    ScaleBetween(Point(12.0, 6.0), Point(-3.0, 3.0), t);
  }

  /** The minimise symbol: a horizontal bar through the centre. */
  function MinimizeSymbol(t: real): (l: Line)
    ensures l.from.y == 9.0 && l.to.y == 9.0
  {
    Line(Scale(Point(5.0, 9.0), Point(2.0, 0.0), t), Scale(Point(13.0, 9.0), Point(-2.0, 0.0), t))
  }

  /** The bar is centred on x = 9 and grows from length 4 at t = 0 to length 8 at t = 1. */
  lemma MinimizeSymbolGrows(t: real)
    ensures MinimizeSymbol(t).from.x + MinimizeSymbol(t).to.x == 18.0
    ensures MinimizeSymbol(t).to.x - MinimizeSymbol(t).from.x == 4.0 + 4.0 * t
  {
  }

  /** The keep-above symbol: two chevrons pointing up, as polylines of three points. */
  function KeepAboveSymbol(t: real): (lines: seq<seq<Point>>)
    ensures |lines| == 2 && |lines[0]| == 3 && |lines[1]| == 3
  {
    [ [Scale(Point(6.0, 8.0), Point(1.0, 0.0), t), Scale(Point(9.0, 5.0), Point(0.0, 1.0), t), Scale(Point(12.0, 8.0), Point(-1.0, 0.0), t)],
      [Scale(Point(6.0, 12.0), Point(1.0, 0.0), t), Scale(Point(9.0, 9.0), Point(0.0, 1.0), t), Scale(Point(12.0, 12.0), Point(-1.0, 0.0), t)] ]
  }

  /** The two chevrons are the same shape, the second one 4 units below the first, at every t. */
  lemma KeepAboveChevronsParallel(t: real)
    ensures forall i :: 0 <= i < 3 ==>
      KeepAboveSymbol(t)[1][i] == Point(KeepAboveSymbol(t)[0][i].x, KeepAboveSymbol(t)[0][i].y + 4.0)
  {
  }

  /** While animating both chevrons stay inside the square [5, 12]. */
  lemma KeepAboveSymbolInBox(t: real)
    requires 0.0 <= t <= 1.0
    ensures forall i, j :: 0 <= i < 2 && 0 <= j < 3 ==> InSquare(KeepAboveSymbol(t)[i][j], 5.0, 12.0)
  {
    ScaleBetween(Point(6.0, 8.0), Point(1.0, 0.0), t);
    ScaleBetween(Point(9.0, 5.0), Point(0.0, 1.0), t);
    ScaleBetween(Point(12.0, 8.0), Point(-1.0, 0.0), t);
    ScaleBetween(Point(6.0, 12.0), Point(1.0, 0.0), t);
    ScaleBetween(Point(9.0, 9.0), Point(0.0, 1.0), t);
    ScaleBetween(Point(12.0, 12.0), Point(-1.0, 0.0), t);
    var lines := KeepAboveSymbol(t);
    assert InSquare(lines[0][0], 5.0, 12.0) && InSquare(lines[0][1], 5.0, 12.0) && InSquare(lines[0][2], 5.0, 12.0);
    assert InSquare(lines[1][0], 5.0, 12.0) && InSquare(lines[1][1], 5.0, 12.0) && InSquare(lines[1][2], 5.0, 12.0);
  }

  /** The point reflection of p through the centre (9, 9) of the symbol box. */
  function Reflect(p: Point): (r: Point)
    ensures r.x + p.x == 18.0 && r.y + p.y == 18.0
  {
    Point(18.0 - p.x, 18.0 - p.y)
  }

  /**
   * The maximise symbol: two filled triangles, given by their corners. A
   * checked (maximised) button draws them pointing inwards, an unchecked one
   * pointing outwards; nothing but the checked flag decides which.
   */
  function MaximizeSymbol(checked: bool): (triangles: (seq<Point>, seq<Point>))
    ensures |triangles.0| == 3 && |triangles.1| == 3
  {
    if checked then
      ([Point(8.5, 9.5), Point(2.5, 9.5), Point(8.5, 15.5)],
       [Point(9.5, 8.5), Point(15.5, 8.5), Point(9.5, 2.5)])
    else
      ([Point(5.0, 13.0), Point(11.0, 13.0), Point(5.0, 7.0)],
       [Point(13.0, 5.0), Point(7.0, 5.0), Point(13.0, 11.0)])
  }

  /** In both states the second triangle is the first one turned half-way round the centre. */
  lemma MaximizeSymbolSymmetric(checked: bool)
    ensures forall i :: 0 <= i < 3 ==> MaximizeSymbol(checked).1[i] == Reflect(MaximizeSymbol(checked).0[i])
  {
  }

  /** The two states draw different triangles, and each lies inside the 18 x 18 box. */
  lemma MaximizeSymbolStates()
    ensures MaximizeSymbol(true) != MaximizeSymbol(false)
    ensures forall c: bool, i :: 0 <= i < 3 ==>
      InSquare(MaximizeSymbol(c).0[i], 0.0, 18.0) && InSquare(MaximizeSymbol(c).1[i], 0.0, 18.0)
  {
  }

  /** The button classes the factory can build. */
  datatype ButtonVariant =
    | CloseButton
    | MaximizeButton
    | MinimizeButton
    | KeepAboveButton
    | KeepBelowButton
    | ApplicationMenuButton
    | MenuButton
    | PlainButton

  /**
   * The theme a freshly constructed button carries: the default theme of its
   * type, replaced by the icon-only theme in the application-menu and menu
   * buttons.
   */
  function InstalledTheme(v: ButtonVariant, t: ButtonType): (th: Theme)
    ensures th.IconOnly? <==> v in {ApplicationMenuButton, MenuButton}
    ensures th.d == DefaultThemeFor(t)
  {
    match v
    case ApplicationMenuButton => IconOnly(DefaultThemeFor(t))
    case MenuButton => IconOnly(DefaultThemeFor(t))
    case _ => Default(DefaultThemeFor(t))
  }
}
