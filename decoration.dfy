/**
 * The window decoration as an object: the shadow shared by every decoration
 * of the process, the live count of decorations that frees it, and the
 * per-window state — title-bar colour sampled from the window, active-state
 * transition, borders and shadow.
 */
module Decoration {
  import opened Util
  import opened DecorationState
  import opened Animations
  import ClientUtil

  /** A rendered shadow: the parameters it was made from and where the window sits in it. */
  class ShadowTexture {
    const params: CompositeShadowParams
    const strength: int
    const color: Color
    const padding: Margins
    /** The one-pixel inner rectangle at the centre of the texture. */
    const innerRect: Rect

    constructor (params: CompositeShadowParams, strength: int, color: Color, padding: Margins, innerRect: Rect)
      ensures this.params == params && this.strength == strength && this.color == color
      ensures this.padding == padding && this.innerRect == innerRect
    {
      this.params := params;
      this.strength := strength;
      this.color := color;
      this.padding := padding;
      this.innerRect := innerRect;
    }
  }

  /**
   * The process-wide state every decoration shares: the settings the cached
   * shadow was built for, the cached shadow, and how many decorations exist.
   */
  class ShadowCache {
    var sizeEnum: int
    var strength: int
    var color: Color
    var shadow: ShadowTexture?
    var decorationCount: int

    /** The state before any decoration exists: large, full-strength black, nothing built. */
    constructor ()
      ensures sizeEnum == ShadowLarge && strength == 255 && color == Black
      ensures shadow == null && decorationCount == 0
    {
      sizeEnum := ShadowLarge;
      strength := 255;
      color := Black;
      shadow := null;
      decorationCount := 0;
    }

    /** A shadow must be built when none is cached or the settings it was built for changed. */
    predicate NeedsRebuild(s: InternalSettings)
      reads this
    {
      shadow == null || sizeEnum != s.shadowSize || strength != s.shadowStrength || color != s.shadowColor
    }
  }

  class Decoration {
    const cache: ShadowCache
    var client: Client
    var settings: InternalSettings
    var host: HostSettings
    var metrics: Metrics
    /** The colour sampled from the window's top line, once one has been found. */
    var titleBarColor: Option<Color>
    /** The progress of the active-state transition, as last reported by the animation. */
    var opacity: real
    var animation: Animation
    var borders: Margins
    var resizeOnlyBorders: Margins
    var shadow: ShadowTexture?
    /** Whether the window could be wrapped for capturing its top line. */
    var hasClientUtil: bool
    /** The number of repaints requested so far. */
    var repaints: nat

    ghost predicate Valid()
      reads this
    {
      InRange(animation)
    }

    /** A new decoration counts itself in the shared count. */
    constructor (cache: ShadowCache, client: Client, settings: InternalSettings, host: HostSettings, metrics: Metrics)
      modifies cache`decorationCount
      ensures cache.decorationCount == old(cache.decorationCount) + 1
      ensures this.cache == cache && this.client == client && this.settings == settings
      ensures this.host == host && this.metrics == metrics
      ensures titleBarColor == None && opacity == 0.0 && animation == Initial
      ensures shadow == null && !hasClientUtil && repaints == 0
      ensures Valid()
    {
      this.cache := cache;
      this.client := client;
      this.settings := settings;
      this.host := host;
      this.metrics := metrics;
      titleBarColor := None;
      opacity := 0.0;
      animation := Initial;
      borders := Margins(0, 0, 0, 0);
      resizeOnlyBorders := Margins(0, 0, 0, 0);
      shadow := null;
      hasClientUtil := false;
      repaints := 0;
      new;
      cache.decorationCount := cache.decorationCount + 1;
    }

    /** The decoration goes away; the last one to go frees the shared shadow. */
    method Destroy()
      modifies cache`decorationCount, cache`shadow
      ensures cache.decorationCount == old(cache.decorationCount) - 1
      ensures cache.decorationCount == 0 ==> cache.shadow == null
      ensures cache.decorationCount != 0 ==> cache.shadow == old(cache.shadow)
    {
      cache.decorationCount := cache.decorationCount - 1;
      if cache.decorationCount == 0 {
        cache.shadow := null;
      }
    }

    /** The window could be wrapped for capture; from now on its top line is sampled. */
    method AttachClientUtil()
      modifies this`hasClientUtil
      ensures hasClientUtil
    {
      hasClientUtil := true;
    }

    /**
     * Builds the shared shadow if none is cached or the shadow settings
     * changed, recording the settings it is built for; a shadow of size none
     * clears the shared one. Otherwise the cached shadow is reused. The box
     * and texture sizes come from the shadow renderer.
     */
    method CreateShadow(boxWidth: int, boxHeight: int, outerWidth: int, outerHeight: int)
      modifies cache`sizeEnum, cache`strength, cache`color, cache`shadow, this`shadow
      ensures cache.sizeEnum == settings.shadowSize && cache.strength == settings.shadowStrength
      ensures cache.color == settings.shadowColor
      ensures !old(cache.NeedsRebuild(settings)) ==> cache.shadow == old(cache.shadow)
      ensures old(cache.NeedsRebuild(settings)) && IsNone(LookupShadowParams(settings.shadowSize)) ==> cache.shadow == null
      ensures old(cache.NeedsRebuild(settings)) && !IsNone(LookupShadowParams(settings.shadowSize)) ==>
        && cache.shadow != null && fresh(cache.shadow)
        && cache.shadow.params == LookupShadowParams(settings.shadowSize)
        && cache.shadow.strength == settings.shadowStrength && cache.shadow.color == settings.shadowColor
        && cache.shadow.padding == ShadowPadding(boxWidth, boxHeight, outerWidth, outerHeight,
             LookupShadowParams(settings.shadowSize).offset, metrics.shadowOverlap)
        && cache.shadow.innerRect == Rect(Rect(0, 0, outerWidth, outerHeight).CenterX(),
                                          Rect(0, 0, outerWidth, outerHeight).CenterY(), 1, 1)
      ensures shadow == cache.shadow
    {
      if cache.NeedsRebuild(settings) {
        cache.sizeEnum := settings.shadowSize;
        cache.strength := settings.shadowStrength;
        cache.color := settings.shadowColor;
        var params := LookupShadowParams(cache.sizeEnum);
        if IsNone(params) {
          cache.shadow := null;
          shadow := cache.shadow;
          return;
        }
        var padding := ShadowPadding(boxWidth, boxHeight, outerWidth, outerHeight, params.offset, metrics.shadowOverlap);
        var outer := Rect(0, 0, outerWidth, outerHeight);
        var texture := new ShadowTexture(params, cache.strength, cache.color, padding,
                                         Rect(outer.CenterX(), outer.CenterY(), 1, 1));
        cache.shadow := texture;
      }
      shadow := cache.shadow;
    }

    /** Stores the transition's progress and requests a repaint; the current value changes nothing. */
    method SetOpacity(value: real)
      modifies this`opacity, this`repaints
      ensures opacity == value
      ensures old(opacity) == value ==> repaints == old(repaints)
      ensures old(opacity) != value ==> repaints == old(repaints) + 1
    {
      if opacity == value {
        return;
      }
      opacity := value;
      repaints := repaints + 1;
    }

    /**
     * Samples the window's top line and keeps its dominant colour. Nothing
     * happens for an inactive window, one that could not be wrapped, or a
     * failed capture; the colour is stored, with a repaint, only when it
     * differs from the one stored.
     */
    method UpdateTitleBarColor(image: array2?<Color>)
      modifies this`titleBarColor, this`repaints
      ensures !hasClientUtil || !client.isActive || image == null ==>
        titleBarColor == old(titleBarColor) && repaints == old(repaints)
      ensures hasClientUtil && client.isActive && image != null ==>
        titleBarColor.Some? && ClientUtil.IsDominant(ClientUtil.Pixels(image), titleBarColor.value)
      ensures titleBarColor != old(titleBarColor) <==> repaints == old(repaints) + 1
      ensures repaints == old(repaints) || repaints == old(repaints) + 1
    {
      if !hasClientUtil || !client.isActive {
        return;
      }
      var color := ClientUtil.TopLineColor(image);
      if color.Some? {
        if titleBarColor.None? || (titleBarColor.Some? && titleBarColor.value != color.value) {
          titleBarColor := color;
          repaints := repaints + 1;
        }
      }
    }

    /**
     * On a change of the window's activity: with animations enabled the
     * transition heads for the new state, starting it if it is not running
     * (a running one just turns round); otherwise the decoration repaints.
     */
    method UpdateAnimationState()
      requires Valid()
      modifies this`animation, this`opacity, this`repaints
      ensures Valid()
      ensures settings.animationsEnabled ==>
        && animation.running && animation.direction == DirectionOf(client.isActive)
        && (old(animation).running ==> animation.value == old(animation).value && opacity == old(opacity))
        && (!old(animation).running ==> animation.value == StartValue(animation.direction) && opacity == animation.value)
        && repaints == old(repaints) + (if !old(animation).running && old(opacity) != animation.value then 1 else 0)
      ensures !settings.animationsEnabled ==>
        animation == old(animation) && opacity == old(opacity) && repaints == old(repaints) + 1
    {
      if settings.animationsEnabled {
        animation := animation.(direction := DirectionOf(client.isActive));
        if !animation.running {
          animation := Start(animation);
          SetOpacity(animation.value);
        }
      } else {
        repaints := repaints + 1;
      }
    }

    /** A clock step of the running transition; its value becomes the progress. */
    method AnimationTick(v: real)
      requires Valid() && animation.running && 0.0 <= v <= 1.0
      modifies this`animation, this`opacity, this`repaints
      ensures Valid()
      ensures animation == Advance(old(animation), v) && opacity == v
      ensures repaints == old(repaints) + (if old(opacity) == v then 0 else 1)
    {
      animation := Advance(animation, v);
      SetOpacity(v);
    }

    /** Recomputes the visible borders and the invisible resize areas. */
    method RecalculateBorders(fontHeight: int)
      modifies this`borders, this`resizeOnlyBorders
      ensures borders == Borders(client, settings, host, metrics, fontHeight)
      ensures resizeOnlyBorders == ResizeOnlyBorders(client, settings, host)
    {
      var left := if IsLeftEdge(client, settings) then 0 else GetBorderSize(settings, host, false);
      var right := if IsRightEdge(client, settings) then 0 else GetBorderSize(settings, host, false);
      var bottom := if client.isShaded || IsBottomEdge(client, settings) then 0 else GetBorderSize(settings, host, true);
      var top := 0;
      if HideTitleBar(client, settings) {
        top := bottom;
      } else {
        top := top + Max(fontHeight, GetButtonHeight(settings, host));
        var baseSize := host.smallSpacing;
        top := top + baseSize * metrics.titleBarBottomMargin + 1;
        top := top + baseSize * metrics.titleBarTopMargin;
      }
      borders := Margins(left, top, right, bottom);

      var extSize := host.largeSpacing;
      var extSides := 0;
      var extBottom := 0;
      if HasNoBorders(settings, host) {
        if !IsMaximizedHorizontally(client, settings) {
          extSides := extSize;
        }
        if !IsMaximizedVertically(client, settings) {
          extBottom := extSize;
        }
      } else if HasNoSideBorders(settings, host) && !IsMaximizedHorizontally(client, settings) {
        extSides := extSize;
      }
      resizeOnlyBorders := Margins(extSides, 0, extSides, extBottom);
    }

    /** The host reports a new window state. */
    method SetClient(c: Client)
      modifies this`client
      ensures client == c
    {
      client := c;
    }

    /** The title-bar colour painted now, from the sampled colour and the transition state. */
    function GetTitleBarColor(): (c: ColorExpr)
      reads this
      ensures titleBarColor.Some? ==> Sources(c) == {titleBarColor.value}
      ensures c == TitleBarColor(client, settings, titleBarColor, animation.running, opacity)
    {
      TitleBarColor(client, settings, titleBarColor, animation.running, opacity)
    }

    /** The caption colour painted now: contrasting text when active, the inactive grey otherwise. */
    function GetFontColor(): (c: ColorExpr)
      reads this
      ensures c == FontColor(client, settings, titleBarColor, animation.running, opacity)
      ensures titleBarColor.Some? && !animation.running && client.isActive ==>
        c == Rgb(if IsLight(titleBarColor.value) then settings.darkTextColor else settings.lightTextColor)
      ensures titleBarColor.Some? && !animation.running && !client.isActive ==>
        c.Rgb? && IsGray(c.color) && c.color.r >= 115
      ensures animation.running ==> c.Mix? && c.amount == opacity
    {
      FontColor(client, settings, titleBarColor, animation.running, opacity)
    }
  }

  /**
   * Two decorations with the same shadow settings share one shadow: after
   * the first builds it, the second reuses that very texture.
   */
  method SharedShadow(d1: Decoration, d2: Decoration, boxWidth: int, boxHeight: int, outerWidth: int, outerHeight: int)
    requires d1.cache == d2.cache && d1 != d2
    requires d1.settings.shadowSize == d2.settings.shadowSize
    requires d1.settings.shadowStrength == d2.settings.shadowStrength
    requires d1.settings.shadowColor == d2.settings.shadowColor
    modifies d1.cache, d1, d2
    ensures d1.shadow == d2.shadow
  {
    d1.CreateShadow(boxWidth, boxHeight, outerWidth, outerHeight);
    d2.CreateShadow(boxWidth, boxHeight, outerWidth, outerHeight);
  }
}
