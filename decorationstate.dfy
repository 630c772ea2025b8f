/**
 * The pure part of the window decoration: the maximise and screen-edge
 * predicates, the border-size and button-height tables, the title-bar
 * opacity, the shadow parameter table and the shadow padding arithmetic,
 * the border computation and the choice of title-bar and text colours.
 *
 * Enumerated settings are held as their integer codes, so that a value
 * outside the known ones can be represented; the known codes follow the
 * declaration order of the enumerations.
 */
module DecorationState {
  import opened Util

  // Border sizes, shared by the decoration's own setting and the host's.
  const BorderNone := 0
  const BorderNoSides := 1
  const BorderTiny := 2
  const BorderNormal := 3
  const BorderLarge := 4
  const BorderVeryLarge := 5
  const BorderHuge := 6
  const BorderVeryHuge := 7
  const BorderOversized := 8

  // Button sizes.
  const ButtonTiny := 0
  const ButtonSmall := 1
  const ButtonDefault := 2
  const ButtonLarge := 3
  const ButtonVeryLarge := 4

  // Shadow sizes.
  const ShadowNone := 0
  const ShadowSmall := 1
  const ShadowMedium := 2
  const ShadowLarge := 3
  const ShadowVeryLarge := 4

  /** C++ integer division, which truncates towards zero. */
  function TruncDiv(a: int, b: int): (q: int)
    requires b > 0
    ensures a >= 0 ==> q == a / b
    ensures a < 0 ==> q == -((-a) / b)
  {
    if a >= 0 then a / b else -((-a) / b)
  }

  datatype Edge = LeftEdge | RightEdge | TopEdge | BottomEdge

  /** The host's palette for the title bar and its text, active and inactive. */
  datatype Palette = Palette(
    activeTitleBar: Color,
    inactiveTitleBar: Color,
    activeForeground: Color,
    inactiveForeground: Color)

  /** What the decoration reads from the decorated window. */
  datatype Client = Client(
    isActive: bool,
    isMaximized: bool,
    isMaximizedHorizontally: bool,
    isMaximizedVertically: bool,
    isShaded: bool,
    adjacentScreenEdges: set<Edge>,
    palette: Palette)

  /**
   * The decoration's own settings. `overridesBorderSize` says whether the
   * settings mask includes the border size, so that `borderSize` replaces
   * the host's.
   */
  datatype InternalSettings = InternalSettings(
    drawBorderOnMaximizedWindows: bool,
    hideTitleBar: bool,
    overridesBorderSize: bool,
    borderSize: int,
    buttonSize: int,
    opaqueTitleBar: bool,
    opacityOverride: int,
    backgroundOpacity: int,
    shadowSize: int,
    shadowStrength: int,
    shadowColor: Color,
    animationsEnabled: bool,
    darkTextColor: Color,
    lightTextColor: Color)

  /** The host's decoration settings. */
  datatype HostSettings = HostSettings(borderSize: int, smallSpacing: int, largeSpacing: int, gridUnit: int)

  /** The style's layout constants, in units of the host's spacing. */
  datatype Metrics = Metrics(titleBarTopMargin: int, titleBarBottomMargin: int, shadowOverlap: int)

  datatype Margins = Margins(left: int, top: int, right: int, bottom: int)

  // ---------------------------------------------------------------------
  // Maximise and edge predicates

  predicate IsMaximized(c: Client, s: InternalSettings) {
    c.isMaximized && !s.drawBorderOnMaximizedWindows
  }

  predicate IsMaximizedHorizontally(c: Client, s: InternalSettings) {
    c.isMaximizedHorizontally && !s.drawBorderOnMaximizedWindows
  }

  predicate IsMaximizedVertically(c: Client, s: InternalSettings) {
    c.isMaximizedVertically && !s.drawBorderOnMaximizedWindows
  }

  predicate IsLeftEdge(c: Client, s: InternalSettings) {
    (c.isMaximizedHorizontally || LeftEdge in c.adjacentScreenEdges) && !s.drawBorderOnMaximizedWindows
  }

  predicate IsRightEdge(c: Client, s: InternalSettings) {
    (c.isMaximizedHorizontally || RightEdge in c.adjacentScreenEdges) && !s.drawBorderOnMaximizedWindows
  }

  predicate IsTopEdge(c: Client, s: InternalSettings) {
    (c.isMaximizedVertically || TopEdge in c.adjacentScreenEdges) && !s.drawBorderOnMaximizedWindows
  }

  predicate IsBottomEdge(c: Client, s: InternalSettings) {
    (c.isMaximizedVertically || BottomEdge in c.adjacentScreenEdges) && !s.drawBorderOnMaximizedWindows
  }

  /** The title bar is hidden when the setting asks for it, but never on a shaded window. */
  predicate HideTitleBar(c: Client, s: InternalSettings) {
    s.hideTitleBar && !c.isShaded
  }

  /** Drawing borders on maximised windows switches every maximise and edge predicate off. */
  lemma BorderSettingOverridesEdges(c: Client, s: InternalSettings)
    requires s.drawBorderOnMaximizedWindows
    ensures !IsMaximized(c, s) && !IsMaximizedHorizontally(c, s) && !IsMaximizedVertically(c, s)
    ensures !IsLeftEdge(c, s) && !IsRightEdge(c, s) && !IsTopEdge(c, s) && !IsBottomEdge(c, s)
  {
  }

  /**
   * Without that setting, a window touches a side of the screen exactly when
   * it is maximised in that direction or the host reports the edge adjacent.
   */
  lemma EdgesFromMaximisation(c: Client, s: InternalSettings)
    requires !s.drawBorderOnMaximizedWindows
    ensures IsLeftEdge(c, s) <==> IsMaximizedHorizontally(c, s) || LeftEdge in c.adjacentScreenEdges
    ensures IsRightEdge(c, s) <==> IsMaximizedHorizontally(c, s) || RightEdge in c.adjacentScreenEdges
    ensures IsTopEdge(c, s) <==> IsMaximizedVertically(c, s) || TopEdge in c.adjacentScreenEdges
    ensures IsBottomEdge(c, s) <==> IsMaximizedVertically(c, s) || BottomEdge in c.adjacentScreenEdges
  {
  }

  /** A shaded window always shows its title bar; a hidden title bar was asked for. */
  lemma ShadedShowsTitleBar(c: Client, s: InternalSettings)
    ensures c.isShaded ==> !HideTitleBar(c, s)
    ensures HideTitleBar(c, s) ==> s.hideTitleBar
  {
  }

  // ---------------------------------------------------------------------
  // Border and button sizes

  /** The border size in force: the decoration's own when its mask includes it, else the host's. */
  function BorderSizeSetting(s: InternalSettings, h: HostSettings): (code: int)
    ensures s.overridesBorderSize ==> code == s.borderSize
    ensures !s.overridesBorderSize ==> code == h.borderSize
  {
    if s.overridesBorderSize then s.borderSize else h.borderSize
  }

  predicate HasNoBorders(s: InternalSettings, h: HostSettings) {
    BorderSizeSetting(s, h) == BorderNone
  }

  predicate HasNoSideBorders(s: InternalSettings, h: HostSettings) {
    BorderSizeSetting(s, h) == BorderNoSides
  }

  /**
   * The width of one border for a border-size code and the host's small
   * spacing b: none is 0; no-sides keeps only a bottom of at least 4; tiny,
   * and any unknown code, is b at the sides and at least 4 at the bottom;
   * normal to oversized are 2b, 3b, 4b, 5b, 6b and 10b.
   */
  function BorderSizeFor(code: int, b: int, bottom: bool): (size: int)
    ensures code == BorderNone ==> size == 0
    ensures code == BorderNoSides ==> size == (if bottom then Max(4, b) else 0)
    ensures !(BorderNone <= code <= BorderOversized) ==> size == (if bottom then Max(4, b) else b)
    ensures code == BorderTiny ==> size == (if bottom then Max(4, b) else b)
    ensures code == BorderNormal ==> size == 2 * b
    ensures code == BorderLarge ==> size == 3 * b
    ensures code == BorderVeryLarge ==> size == 4 * b
    ensures code == BorderHuge ==> size == 5 * b
    ensures code == BorderVeryHuge ==> size == 6 * b
    ensures code == BorderOversized ==> size == 10 * b
  {
    if code == BorderNone then 0
    else if code == BorderNoSides then (if bottom then Max(4, b) else 0)
    else if code == BorderNormal then b * 2
    else if code == BorderLarge then b * 3
    else if code == BorderVeryLarge then b * 4
    else if code == BorderHuge then b * 5
    else if code == BorderVeryHuge then b * 6
    else if code == BorderOversized then b * 10
    else if bottom then Max(4, b) else b
  }

  /** An unknown border-size code behaves as tiny. */
  lemma UnknownBorderSizeIsTiny(code: int, b: int, bottom: bool)
    requires !(BorderNone <= code <= BorderOversized)
    ensures BorderSizeFor(code, b, bottom) == BorderSizeFor(BorderTiny, b, bottom)
  {
  }

  /** With a positive spacing the sizes from tiny to oversized strictly increase, sides and bottom alike. */
  lemma BorderSizesIncrease(b: int, bottom: bool, c1: int, c2: int)
    requires b >= 4
    requires BorderTiny <= c1 < c2 <= BorderOversized
    ensures BorderSizeFor(c1, b, bottom) < BorderSizeFor(c2, b, bottom)
  {
  }

  /** Every border size is non-negative, and the bottom border is never thinner than a side. */
  lemma BottomAtLeastSide(code: int, b: int)
    requires b >= 0
    ensures 0 <= BorderSizeFor(code, b, false) <= BorderSizeFor(code, b, true)
  {
  }

  function GetBorderSize(s: InternalSettings, h: HostSettings, bottom: bool): (size: int)
    ensures HasNoBorders(s, h) ==> size == 0
    ensures HasNoSideBorders(s, h) && !bottom ==> size == 0
    ensures size == BorderSizeFor(BorderSizeSetting(s, h), h.smallSpacing, bottom)
  {
    BorderSizeFor(BorderSizeSetting(s, h), h.smallSpacing, bottom)
  }

  /**
   * The button height for a button-size code and the host's grid unit g:
   * g, 1.5 g, 2 g (also for unknown codes), 2.5 g and 3.5 g, the
   * fractional ones truncated.
   */
  function ButtonHeightFor(code: int, g: int): (height: int)
    ensures code == ButtonTiny ==> height == g
    ensures code == ButtonSmall ==> height == TruncDiv(3 * g, 2)
    ensures code == ButtonLarge ==> height == TruncDiv(5 * g, 2)
    ensures code == ButtonVeryLarge ==> height == TruncDiv(7 * g, 2)
    ensures code !in {ButtonTiny, ButtonSmall, ButtonLarge, ButtonVeryLarge} ==> height == 2 * g
  {
    if code == ButtonTiny then g
    else if code == ButtonSmall then TruncDiv(g * 3, 2)
    else if code == ButtonLarge then TruncDiv(g * 5, 2)
    else if code == ButtonVeryLarge then TruncDiv(g * 7, 2)
    else g * 2
  }

  /** For a non-negative grid unit the heights grow with the size, and an even unit gives exact multiples. */
  lemma ButtonHeightsOrdered(g: int)
    requires g >= 0
    ensures ButtonHeightFor(ButtonTiny, g) <= ButtonHeightFor(ButtonSmall, g) <= ButtonHeightFor(ButtonDefault, g)
    ensures ButtonHeightFor(ButtonDefault, g) <= ButtonHeightFor(ButtonLarge, g) <= ButtonHeightFor(ButtonVeryLarge, g)
    ensures g % 2 == 0 ==>
      (2 * ButtonHeightFor(ButtonSmall, g) == 3 * g && 2 * ButtonHeightFor(ButtonLarge, g) == 5 * g
       && 2 * ButtonHeightFor(ButtonVeryLarge, g) == 7 * g)
  {
    var q, r := g / 2, g % 2;
    assert g == 2 * q + r && 0 <= r <= 1;
    assert 3 * g == 2 * (3 * q + r) + r;
    assert 5 * g == 2 * (5 * q + 2 * r) + r;
    assert 7 * g == 2 * (7 * q + 3 * r) + r;
    assert ButtonHeightFor(ButtonSmall, g) == 3 * q + r;
    assert ButtonHeightFor(ButtonLarge, g) == 5 * q + 2 * r;
    assert ButtonHeightFor(ButtonVeryLarge, g) == 7 * q + 3 * r;
  }

  /** The button height the settings ask for: from one to three and a half grid units. */
  function GetButtonHeight(s: InternalSettings, h: HostSettings): (height: int)
    ensures height == ButtonHeightFor(s.buttonSize, h.gridUnit)
    ensures h.gridUnit >= 0 ==> h.gridUnit <= height <= TruncDiv(7 * h.gridUnit, 2)
  {
    if h.gridUnit >= 0 then
      ButtonHeightsOrdered(h.gridUnit);
      ButtonHeightFor(s.buttonSize, h.gridUnit)
    else
      ButtonHeightFor(s.buttonSize, h.gridUnit)
  }

  // ---------------------------------------------------------------------
  // Title-bar opacity

  function Clamp(lo: int, x: int, hi: int): (r: int)
    requires lo <= hi
    ensures lo <= r <= hi
    ensures lo <= x <= hi ==> r == x
    ensures x < lo ==> r == lo
    ensures x > hi ==> r == hi
  {
    if x < lo then lo else if x > hi then hi else x
  }

  /** The opacity percentage in force: the override when it is not negative, else the background opacity. */
  function OpacityPercent(s: InternalSettings): (p: int)
    ensures 0 <= p <= 100
    ensures s.opacityOverride > -1 ==> p == Clamp(0, s.opacityOverride, 100)
    ensures s.opacityOverride <= -1 ==> p == Clamp(0, s.backgroundOpacity, 100)
  {
    var a := if s.opacityOverride > -1 then s.opacityOverride else s.backgroundOpacity;
    Clamp(0, a, 100)
  }

  /**
   * The title bar's alpha: 255 when opaque title bars are on, else the
   * opacity percentage scaled to [0, 255] and rounded to a nearest integer.
   */
  function GetTitleBarAlpha(s: InternalSettings): (alpha: int)
    ensures 0 <= alpha <= 255
    ensures s.opaqueTitleBar ==> alpha == 255
    ensures !s.opaqueTitleBar ==> -50 <= 100 * alpha - 255 * OpacityPercent(s) <= 50
  {
    if s.opaqueTitleBar then 255 else (255 * OpacityPercent(s) + 50) / 100
  }

  /** The end points, and a larger percentage never gives a smaller alpha. */
  lemma TitleBarAlphaScale(s: InternalSettings, t: InternalSettings)
    requires !s.opaqueTitleBar && !t.opaqueTitleBar
    ensures OpacityPercent(s) == 0 ==> GetTitleBarAlpha(s) == 0
    ensures OpacityPercent(s) == 100 ==> GetTitleBarAlpha(s) == 255
    ensures OpacityPercent(s) <= OpacityPercent(t) ==> GetTitleBarAlpha(s) <= GetTitleBarAlpha(t)
  {
  }

  /** A non-negative override makes the background opacity irrelevant. */
  lemma OverrideWins(s: InternalSettings, backgroundOpacity: int)
    requires s.opacityOverride >= 0
    ensures GetTitleBarAlpha(s) == GetTitleBarAlpha(s.(backgroundOpacity := backgroundOpacity))
  {
  }

  // ---------------------------------------------------------------------
  // Shadow parameters

  datatype IntPoint = IntPoint(x: int, y: int)

  datatype ShadowParams = ShadowParams(offset: IntPoint, radius: int, opacity: real)

  /** A shadow drawn as two blurred boxes, both shifted by a common offset. */
  datatype CompositeShadowParams = CompositeShadowParams(offset: IntPoint, shadow1: ShadowParams, shadow2: ShadowParams)

  /** No shadow is drawn when neither box has a blur radius. */
  predicate IsNone(p: CompositeShadowParams) {
    Max(p.shadow1.radius, p.shadow2.radius) == 0
  }

  const NoShadow := ShadowParams(IntPoint(0, 0), 0, 0.0)

  /** The parameter table, indexed by shadow-size code from none to very large. */
  const ShadowTable: seq<CompositeShadowParams> := [
    CompositeShadowParams(IntPoint(0, 0), NoShadow, NoShadow),
    CompositeShadowParams(IntPoint(0, 4), ShadowParams(IntPoint(0, 0), 16, 1.0), ShadowParams(IntPoint(0, -2), 8, 0.4)),
    CompositeShadowParams(IntPoint(0, 8), ShadowParams(IntPoint(0, 0), 32, 0.9), ShadowParams(IntPoint(0, -4), 16, 0.3)),
    CompositeShadowParams(IntPoint(0, 12), ShadowParams(IntPoint(0, 0), 48, 0.8), ShadowParams(IntPoint(0, -6), 24, 0.2)),
    CompositeShadowParams(IntPoint(0, 16), ShadowParams(IntPoint(0, 0), 64, 0.7), ShadowParams(IntPoint(0, -8), 32, 0.1))
  ]

  /**
   * Every visible size k (1 for small up to 4 for very large) follows one
   * pattern: the shadow sits 4k below the window, the main box has blur 16k
   * and opacity 1.1 - 0.1k, the second box sits 2k higher with half the blur
   * and opacity 0.5 - 0.1k.
   */
  lemma ShadowTablePattern(k: int)
    requires 1 <= k <= 4
    ensures ShadowTable[k] == CompositeShadowParams(
      IntPoint(0, 4 * k),
      ShadowParams(IntPoint(0, 0), 16 * k, 1.1 - 0.1 * k as real),
      ShadowParams(IntPoint(0, -2 * k), 8 * k, 0.5 - 0.1 * k as real))
  {
  }

  /** The parameters for a shadow-size code; any unknown code falls back to the large shadow. */
  function LookupShadowParams(size: int): (p: CompositeShadowParams)
    ensures ShadowNone <= size <= ShadowVeryLarge ==> p == ShadowTable[size - ShadowNone]
    ensures !(ShadowNone <= size <= ShadowVeryLarge) ==> p == ShadowTable[ShadowLarge - ShadowNone]
    ensures IsNone(p) <==> size == ShadowNone
  {
    if size == ShadowNone then ShadowTable[0]
    else if size == ShadowSmall then ShadowTable[1]
    else if size == ShadowMedium then ShadowTable[2]
    else if size == ShadowLarge then ShadowTable[3]
    else if size == ShadowVeryLarge then ShadowTable[4]
    else ShadowTable[3]
  }

  /** Larger shadow sizes blur further and fall further below the window. */
  lemma ShadowGrowsWithSize(s1: int, s2: int)
    requires ShadowNone <= s1 < s2 <= ShadowVeryLarge
    ensures LookupShadowParams(s1).shadow1.radius < LookupShadowParams(s2).shadow1.radius
    ensures LookupShadowParams(s1).offset.y < LookupShadowParams(s2).offset.y
  {
  }

  /** The opacity a box's shadow colour gets: its table opacity scaled by the strength out of 255. */
  function LayerAlpha(p: ShadowParams, strength: int): (alpha: real)
    ensures strength == 255 ==> alpha == p.opacity
    ensures 0 <= strength <= 255 && 0.0 <= p.opacity ==> 0.0 <= alpha <= p.opacity
  {
    p.opacity * strength as real / 255.0
  }

  // ---------------------------------------------------------------------
  // Shadow padding

  /** An integer rectangle with the toolkit's inclusive right and bottom edges. */
  datatype Rect = Rect(left: int, top: int, width: int, height: int) {
    function Right(): int { left + width - 1 }
    function Bottom(): int { top + height - 1 }
    function CenterX(): int { TruncDiv(left + Right(), 2) }
    function CenterY(): int { TruncDiv(top + Bottom(), 2) }
  }

  /** The rectangle of the given size moved so that its centre is (cx, cy). */
  function MoveCenter(width: int, height: int, cx: int, cy: int): (r: Rect)
    ensures r.width == width && r.height == height
    ensures r.left == cx - TruncDiv(width - 1, 2) && r.top == cy - TruncDiv(height - 1, 2)
  {
    Rect(cx - TruncDiv(width - 1, 2), cy - TruncDiv(height - 1, 2), width, height)
  }

  /**
   * The padding of the shadow texture: the box rectangle centred in the
   * texture, less the overlap with the window, shifted by the shadow offset.
   */
  function ShadowPadding(boxWidth: int, boxHeight: int, outerWidth: int, outerHeight: int,
                         offset: IntPoint, overlap: int): (m: Margins)
  {
    var outer := Rect(0, 0, outerWidth, outerHeight);
    var box := MoveCenter(boxWidth, boxHeight, outer.CenterX(), outer.CenterY());
    Margins(
      box.left - outer.left - overlap - offset.x,
      box.top - outer.top - overlap - offset.y,
      outer.Right() - box.Right() - overlap + offset.x,
      outer.Bottom() - box.Bottom() - overlap + offset.y)
  }

  /**
   * Opposite paddings always add up to the texture size less the box size
   * and twice the overlap: the shadow offset cancels out.
   */
  lemma ShadowPaddingSum(boxWidth: int, boxHeight: int, outerWidth: int, outerHeight: int,
                         offset: IntPoint, overlap: int)
    ensures var m := ShadowPadding(boxWidth, boxHeight, outerWidth, outerHeight, offset, overlap);
      m.left + m.right == outerWidth - boxWidth - 2 * overlap
      && m.top + m.bottom == outerHeight - boxHeight - 2 * overlap
  {
  }

  /** A positive C++ halving loses at most one. */
  lemma HalfOfNonNegative(n: int)
    requires n >= 0
    ensures 2 * TruncDiv(n, 2) == n - n % 2
    ensures 0 <= n % 2 <= 1
  {
  }

  /**
   * The box is centred: apart from the shadow offset, which moves it, the
   * paddings on opposite sides differ by at most one pixel.
   */
  lemma ShadowPaddingCentred(boxWidth: int, boxHeight: int, outerWidth: int, outerHeight: int,
                             offset: IntPoint, overlap: int)
    requires boxWidth >= 1 && boxHeight >= 1 && outerWidth >= 1 && outerHeight >= 1
    ensures var m := ShadowPadding(boxWidth, boxHeight, outerWidth, outerHeight, offset, overlap);
      -1 <= m.left - m.right + 2 * offset.x <= 1
      && -1 <= m.top - m.bottom + 2 * offset.y <= 1
  {
    HalfOfNonNegative(outerWidth - 1);
    HalfOfNonNegative(boxWidth - 1);
    HalfOfNonNegative(outerHeight - 1);
    HalfOfNonNegative(boxHeight - 1);
  }

  // ---------------------------------------------------------------------
  // Borders

  /**
   * The borders of the window. A side on a screen edge has none; the bottom
   * has none when the window is shaded or on the bottom edge. The top is the
   * bottom when the title bar is hidden, else it holds the taller of the
   * caption font and the buttons, the margins above and below and one pixel
   * for the active-window outline.
   */
  function Borders(c: Client, s: InternalSettings, h: HostSettings, m: Metrics, fontHeight: int): (b: Margins)
    ensures b.left == (if IsLeftEdge(c, s) then 0 else GetBorderSize(s, h, false))
    ensures b.right == (if IsRightEdge(c, s) then 0 else GetBorderSize(s, h, false))
    ensures b.bottom == (if c.isShaded || IsBottomEdge(c, s) then 0 else GetBorderSize(s, h, true))
    ensures HideTitleBar(c, s) ==> b.top == b.bottom
    ensures !HideTitleBar(c, s) ==>
      (b.top == Max(fontHeight, GetButtonHeight(s, h)) + h.smallSpacing * (m.titleBarBottomMargin + m.titleBarTopMargin) + 1)
  {
    var left := if IsLeftEdge(c, s) then 0 else GetBorderSize(s, h, false);
    var right := if IsRightEdge(c, s) then 0 else GetBorderSize(s, h, false);
    var bottom := if c.isShaded || IsBottomEdge(c, s) then 0 else GetBorderSize(s, h, true);
    var below := h.smallSpacing * m.titleBarBottomMargin;
    var above := h.smallSpacing * m.titleBarTopMargin;
    assert below + above == h.smallSpacing * (m.titleBarBottomMargin + m.titleBarTopMargin);
    var top :=
      if HideTitleBar(c, s) then bottom
      else Max(fontHeight, GetButtonHeight(s, h)) + below + 1 + above;
    Margins(left, top, right, bottom)
  }

  /** A window maximised both ways has no side or bottom border. */
  lemma MaximisedHasNoFrame(c: Client, s: InternalSettings, h: HostSettings, m: Metrics, fontHeight: int)
    requires IsMaximizedHorizontally(c, s) && IsMaximizedVertically(c, s)
    ensures Borders(c, s, h, m, fontHeight).left == 0
    ensures Borders(c, s, h, m, fontHeight).right == 0
    ensures Borders(c, s, h, m, fontHeight).bottom == 0
  {
  }

  /** A shown title bar is taller than both the caption font and the buttons. */
  lemma TitleBarFitsCaptionAndButtons(c: Client, s: InternalSettings, h: HostSettings, m: Metrics, fontHeight: int)
    requires !HideTitleBar(c, s)
    requires h.smallSpacing >= 0 && m.titleBarTopMargin >= 0 && m.titleBarBottomMargin >= 0
    ensures Borders(c, s, h, m, fontHeight).top > fontHeight
    ensures Borders(c, s, h, m, fontHeight).top > GetButtonHeight(s, h)
  {
    assert h.smallSpacing * (m.titleBarBottomMargin + m.titleBarTopMargin) >= 0;
  }

  /**
   * The invisible resize areas: with no borders at all, the large spacing at
   * the sides unless maximised horizontally and at the bottom unless
   * maximised vertically; with no side borders, only the sides; otherwise
   * none. There is never one at the top.
   */
  function ResizeOnlyBorders(c: Client, s: InternalSettings, h: HostSettings): (r: Margins)
    ensures r.top == 0 && r.left == r.right
    ensures HasNoBorders(s, h) ==>
      r.left == (if IsMaximizedHorizontally(c, s) then 0 else h.largeSpacing)
      && r.bottom == (if IsMaximizedVertically(c, s) then 0 else h.largeSpacing)
    ensures HasNoSideBorders(s, h) ==>
      r.left == (if IsMaximizedHorizontally(c, s) then 0 else h.largeSpacing) && r.bottom == 0
    ensures !HasNoBorders(s, h) && !HasNoSideBorders(s, h) ==> r == Margins(0, 0, 0, 0)
  {
    var ext := h.largeSpacing;
    var sides :=
      if HasNoBorders(s, h) then (if !IsMaximizedHorizontally(c, s) then ext else 0)
      else if HasNoSideBorders(s, h) && !IsMaximizedHorizontally(c, s) then ext
      else 0;
    var bottom := if HasNoBorders(s, h) && !IsMaximizedVertically(c, s) then ext else 0;
    Margins(sides, 0, sides, bottom)
  }

  /** Resize areas are only added where the visible border is zero. */
  lemma ResizeAreasReplaceBorders(c: Client, s: InternalSettings, h: HostSettings, m: Metrics, fontHeight: int)
    ensures ResizeOnlyBorders(c, s, h).left != 0 ==>
      Borders(c, s, h, m, fontHeight).left == 0 && Borders(c, s, h, m, fontHeight).right == 0
    ensures ResizeOnlyBorders(c, s, h).bottom != 0 ==> Borders(c, s, h, m, fontHeight).bottom == 0
  {
  }

  // ---------------------------------------------------------------------
  // Title-bar and text colours

  /**
   * The colour of the title bar. A sampled colour from the window's top
   * line stands in for both the active and the inactive colour. A hidden
   * title bar takes the inactive one; during the active-state transition the
   * two are mixed by the transition's progress; otherwise the window's
   * activity picks one.
   */
  function TitleBarColor(c: Client, s: InternalSettings, sampled: Option<Color>, animating: bool, progress: real): (r: ColorExpr)
    ensures sampled.Some? ==> Sources(r) == {sampled.value}
    ensures sampled.None? && HideTitleBar(c, s) ==> r == Rgb(c.palette.inactiveTitleBar)
    ensures sampled.None? && !HideTitleBar(c, s) && !animating ==>
      r == Rgb(if c.isActive then c.palette.activeTitleBar else c.palette.inactiveTitleBar)
    ensures sampled.None? && !HideTitleBar(c, s) && animating ==>
      r == Mix(c.palette.inactiveTitleBar, c.palette.activeTitleBar, progress)
  {
    var active := if sampled.Some? then sampled.value else c.palette.activeTitleBar;
    var inactive := if sampled.Some? then sampled.value else c.palette.inactiveTitleBar;
    if HideTitleBar(c, s) then Rgb(inactive)
    else if animating then Mix(inactive, active, progress)
    else if c.isActive then Rgb(active) else Rgb(inactive)
  }

  /** Outside a transition, a sampled colour is the title-bar colour whatever the window's state. */
  lemma SampledColorWins(c: Client, s: InternalSettings, x: Color, progress: real)
    ensures TitleBarColor(c, s, Some(x), false, progress) == Rgb(x)
    ensures HideTitleBar(c, s) ==> TitleBarColor(c, s, Some(x), true, progress) == Rgb(x)
  {
  }

  /**
   * The colour of the caption text. With a sampled title-bar colour, active
   * text is the dark text colour on a light title bar and the light one on a
   * dark bar, and inactive text is the inactive grey of the title bar;
   * otherwise the palette's colours are used. During the transition the two
   * are mixed, otherwise the window's activity picks one.
   */
  function FontColor(c: Client, s: InternalSettings, sampled: Option<Color>, animating: bool, progress: real): (r: ColorExpr)
    ensures sampled.Some? && !animating && c.isActive ==>
      r == Rgb(if IsLight(sampled.value) then s.darkTextColor else s.lightTextColor)
    ensures sampled.Some? && !animating && !c.isActive ==> r == Rgb(InactiveGrayFrom(sampled.value))
    ensures sampled.None? && !animating ==>
      r == Rgb(if c.isActive then c.palette.activeForeground else c.palette.inactiveForeground)
    ensures animating ==> r.Mix? && r.amount == progress
    ensures sampled.Some? && animating ==>
      r == Mix(InactiveGrayFrom(sampled.value),
               if IsLight(sampled.value) then s.darkTextColor else s.lightTextColor, progress)
    ensures sampled.None? && animating ==>
      r == Mix(c.palette.inactiveForeground, c.palette.activeForeground, progress)
  {
    var active :=
      if sampled.Some? then (if IsLight(sampled.value) then s.darkTextColor else s.lightTextColor)
      else c.palette.activeForeground;
    var inactive := if sampled.Some? then InactiveGrayFrom(sampled.value) else c.palette.inactiveForeground;
    if animating then Mix(inactive, active, progress)
    else if c.isActive then Rgb(active) else Rgb(inactive)
  }

  /** Inactive caption text on a sampled title bar is a neutral grey never darker than 115. */
  lemma InactiveTextIsGray(c: Client, s: InternalSettings, x: Color, progress: real)
    requires !c.isActive
    ensures FontColor(c, s, Some(x), false, progress).Rgb?
    ensures IsGray(FontColor(c, s, Some(x), false, progress).color)
    ensures FontColor(c, s, Some(x), false, progress).color.r >= 115
  {
  }
}
