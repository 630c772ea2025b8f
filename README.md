# BreezeEnhanced decoration core in Dafny

BreezeEnhanced is a KWin window decoration derived from Breeze. This project
models the parts of it that decide what a window's frame looks like and how it
reacts to state changes:

- **Title-bar colour sampling** (`ClientUtil`). A window's top two pixel rows
  are scanned, and the title bar takes their most frequent colour. A
  dictionary counts each colour, and a running best is raised only when a
  count strictly exceeds it, so on a tie the colour that reached the count
  first wins. The scan is an imperative method over a two-dimensional array.
  Its loop invariants tie it to a specification on the sequence of pixels in
  scan order.
- **Colour helpers** (`Util`): the grey used for inactive windows, and the
  perceptive luminance that decides whether a colour is light.
- **Solid button themes** (`SolidButtonTheme`, `SolidButtons`). The default
  theme gives each button type a base colour. It derives the background,
  border and symbol colours from that base and from the button state (active,
  checked, hovered, pressed, animating) and the title-bar colour. The
  icon-only theme is used by the menu buttons. Each window control has
  animated symbol geometry: close, maximize, minimize and keep-above.
- **The solid button** (`Button`). A class holding the button's flag, offset,
  icon size, opacity and hover/press/check state, plus the animation object
  that fades it in and out. The model covers how hover and press events drive
  that animation, and what one paint call draws.
- **The button factory** (`ButtonFactory`): which button class is built for
  which button type.
- **Decoration state** (`DecorationState`, `Decoration`):
  - the maximisation and screen-edge predicates;
  - border sizes and button heights from the settings;
  - the title-bar alpha;
  - the title-bar and font colours, including the sampled colour;
  - frame borders and resize-only borders;
  - the shadow parameter table;
  - the shadow shared by all decorations, which is rebuilt only when the
    shadow settings change.
- **Animation** (`Animations`). The toolkit animation object, reduced to a
  direction, a running flag and a value in [0, 1]. Starting a stopped
  animation rewinds it to the start of its direction, as the toolkit
  documents.

Colour operations of the toolkit (lighter, darker, tint, mix) are kept as
terms of a small expression language (`ColorExpr`), so contracts state which
operations are applied to which colours. Integer division follows C++
truncation (`TruncDiv`). Enumerations of the settings are integer codes in
declaration order.

## Model

| member | source | states |
|---|---|---|
| Util.InactiveGray | util.cpp:3-13 | the inactive grey is at least 115 and never equals the input grey; at most 200 it is lifted by 55 (or to 115), above 200 it drops by 45 |
| Util.InactiveGrayFrom | util.cpp:3-13 | the result is a grey, at least 115, whose level is `InactiveGray` of the colour's toolkit grey |
| Util.InactiveGrayExamples | util.cpp:3-13 | 220 maps to 175, 100 to 155, 50 to 115, and the colour (50,50,50) to (115,115,115) |
| Util.PerceptiveLuminance | util.cpp:15-18 | luminance lies in [0, 1], black is 0 and white is 1, and it equals the integer weight 299r+587g+114b scaled by 255000 |
| Util.IsLightIsAboveHalf | util.cpp:15-18 | a colour counts as light exactly when its perceptive luminance exceeds 0.5 |
| Util.LuminanceMonotone | util.cpp:15-18 | raising any channel never lowers the luminance, so a light colour stays light |
| ClientUtil.CaptureExtent | clientutil.cpp:87-91 | a negative request keeps the window's extent; otherwise the extent is clamped into [1, min(request, actual)] |
| ClientUtil.TopLineCaptureExtent | clientutil.cpp:149 | the title-bar sample keeps the full width and at most two rows, exactly two when the window is that tall |
| ClientUtil.FirstReachIsMode | clientutil.cpp:162-169 | the colour at the first position whose running count reaches the maximum occurs most often of all colours |
| ClientUtil.FirstReachUnique | clientutil.cpp:168-169 | only one position is the first to reach the maximum count, so the strict comparison picks a single winner |
| ClientUtil.MaxCountBoundsOccurrences | clientutil.cpp:167-169 | no colour occurs more often than the largest running count met during the scan |
| ClientUtil.MaxCountMonotone | clientutil.cpp:168-169 | the running best count never decreases as the scan proceeds |
| ClientUtil.RunCountBounded | clientutil.cpp:167-169 | each running count is at most the best count of the whole scan |
| ClientUtil.CountMapAt | clientutil.cpp:162-165 | after a scan the dictionary has an entry exactly for the colours seen, holding each one's number of occurrences |
| ClientUtil.CountMapSnoc | clientutil.cpp:162-165 | scanning one more pixel inserts its colour with count one or adds one to its entry |
| ClientUtil.CountMapTotal | clientutil.cpp:154-171 | the dictionary's counts add up to the number of pixels scanned |
| ClientUtil.PixelCountsTotal | clientutil.cpp:156-171 | the counts for a captured image add up to its width times its height |
| ClientUtil.ScanLength | clientutil.cpp:156-158 | the row-by-row scan of the first rows visits rows times width pixels |
| ClientUtil.ScanStep | clientutil.cpp:160-169 | one pixel's step raises the best exactly when its new count beats the old best, and keeps the first-to-reach-maximum position otherwise |
| ClientUtil.TracksStep | clientutil.cpp:160-169 | one iteration of the inner loop keeps the dictionary and the running best in step with the pixels seen |
| ClientUtil.TracksFinal | clientutil.cpp:173 | at the end, the best colour is black for no pixels, and otherwise a most frequent colour among the pixels |
| ClientUtil.DominantIsUniqueMode | clientutil.cpp:154-173 | the colour the scan returns is determined by the pixels and is a most frequent one |
| ClientUtil.TopLineColor | clientutil.cpp:147-174 | a failed capture gives no colour; an empty capture gives black; otherwise the colour returned is the pixels' first-reached mode |
| SolidButtonTheme.DefaultThemeFor | solidbuttontheme.cpp:10-43 | a symbol is drawn exactly for menu, application-menu, on-all-desktops, custom and spacer types, which are all orange |
| SolidButtonTheme.BaseColorTable | solidbuttontheme.cpp:10-43 | the base colour of each button type, as the constructor's table gives it |
| SolidButtonTheme.BaseColorsDistinct | solidbuttontheme.cpp:10-43 | two different types without a symbol never share a base colour |
| SolidButtonTheme.BackgroundColor | solidbuttontheme.cpp:52-89 | a live, unchecked button on a light title bar is darkened by 105 when pressed, lightened by 105 when animating and by 110 when hovered, and plain base colour otherwise; a live, checked one on a light title bar is that state colour (without the hover step) darkened by 130; an idle button is the inactive grey tinted with the title-bar colour, lightened by 130 on a dark title bar and darkened by 135 when checked; a live one is built from its base colour only |
| SolidButtonTheme.InactiveBackgroundIgnoresBase | solidbuttontheme.cpp:76-88 | an idle button's background is the same whatever its base colour |
| SolidButtonTheme.PressedTakesPrecedence | solidbuttontheme.cpp:58-74 | when pressed, hover, animation and activity do not change the background |
| SolidButtonTheme.AnimatingTakesPrecedenceOverHover | solidbuttontheme.cpp:58-74 | while animating and not pressed, hover does not change the background |
| SolidButtonTheme.CheckedIgnoresHover | solidbuttontheme.cpp:58-74 | a checked, active, settled button has the same background hovered or not |
| SolidButtonTheme.CheckedDarkens | solidbuttontheme.cpp:58-74 | on a light title bar, checking a button darkens its background by factor 130 |
| SolidButtonTheme.DarkTitleBarLightens | solidbuttontheme.cpp:70-74 | a live button on a dark title bar has the light-title-bar background lightened by 115 |
| SolidButtonTheme.BorderColor | solidbuttontheme.cpp:91-97 | the border is the background term with one darken or lighten of factor 130 applied, so it is built from the same colours |
| SolidButtonTheme.BorderFollowsTitleBar | solidbuttontheme.cpp:91-97 | the border is the background darkened by 130 on a light title bar and lightened by 130 on a dark one |
| SolidButtonTheme.SymbolColor | solidbuttontheme.cpp:99-104 | a live button's symbol has the title-bar colour; an idle one's is its background lightened by 150 |
| SolidButtonTheme.ShowBackground | solidbuttontheme.cpp:106-110 | the default theme always paints the background |
| SolidButtonTheme.ShowBorder | solidbuttontheme.cpp:112-115 | the outline is painted exactly when the button is not pressed |
| SolidButtonTheme.ShowSymbol | solidbuttontheme.cpp:117-126 | a symbol is shown only by symbol themes and only when hovered, checked and active, or animating; a press without animation hides it |
| SolidButtonTheme.ShownSymbolUsesTitleBarColor | solidbuttontheme.cpp:99-126 | a visible symbol is always drawn in the title-bar colour |
| SolidButtons.IconOnlySymbolColor | solidbuttons.cpp:38-42 | the icon-only symbol is dark grey (32) on a light title bar and near white (240) on a dark one |
| SolidButtons.IconOnlySymbolContrasts | solidbuttons.cpp:38-42 | the icon-only symbol colour is light exactly when the title bar is dark |
| SolidButtons.IconOnlyInheritsColours | solidbuttons.cpp:14-43 | the icon-only theme keeps the fill and outline colours of the default theme it extends |
| SolidButtons.ThemeSymbolColor | solidbuttons.cpp:38-42 | the icon-only theme picks the contrast colour; the default theme its own symbol colour |
| SolidButtons.ThemeShowBackground | solidbuttons.cpp:23-26 | only the default theme paints a background |
| SolidButtons.ThemeShowBorder | solidbuttons.cpp:28-31 | the icon-only theme never paints an outline; the default theme does when not pressed |
| SolidButtons.ThemeShowSymbol | solidbuttons.cpp:33-36 | the icon-only theme always shows its symbol; the default theme follows its own rule |
| SolidButtons.IconOnlyShowsOnlySymbol | solidbuttons.cpp:23-36 | an icon-only button shows its symbol and neither background nor outline |
| SolidButtons.Scale | solidbuttons.cpp:56-59 | the animated point lies on the segment from q+v (value 0) towards q (value 1), at distance proportional to 1-t |
| SolidButtons.ScaleEnds | solidbuttons.cpp:56-59 | at value 0 the point is q+v and at value 1 it is q |
| SolidButtons.ScaleBetween | solidbuttons.cpp:56-59 | for values in [0, 1] each coordinate stays between q and q+v |
| SolidButtons.CloseSymbol | solidbuttons.cpp:62-63 | the close symbol is two lines |
| SolidButtons.CloseSymbolEnds | solidbuttons.cpp:56-63 | at value 0 the X collapses to the centre (9, 9); at value 1 it is the diagonals of the square from 6 to 12 |
| SolidButtons.CloseSymbolInBox | solidbuttons.cpp:56-63 | during the animation the X stays inside the square from 6 to 12 |
| SolidButtons.MinimizeSymbol | solidbuttons.cpp:117-128 | the minimize symbol is a horizontal line at height 9 |
| SolidButtons.MinimizeSymbolGrows | solidbuttons.cpp:117-128 | the line is centred on x = 9 and its length grows from 4 to 8 with the value |
| SolidButtons.KeepAboveSymbol | solidbuttons.cpp:143-161 | the keep-above symbol is two polylines of three points |
| SolidButtons.KeepAboveChevronsParallel | solidbuttons.cpp:153-161 | the second chevron is the first moved 4 down |
| SolidButtons.KeepAboveSymbolInBox | solidbuttons.cpp:143-161 | for values in [0, 1] every chevron point lies in the square from 5 to 12 |
| SolidButtons.Reflect | solidbuttons.cpp:78-99 | reflection through the centre (9, 9) of the 18-unit button |
| SolidButtons.MaximizeSymbol | solidbuttons.cpp:78-99 | the maximize symbol is two triangles of three points |
| SolidButtons.MaximizeSymbolSymmetric | solidbuttons.cpp:78-99 | in both states the second triangle is the first reflected through the centre |
| SolidButtons.MaximizeSymbolStates | solidbuttons.cpp:78-99 | the checked and unchecked symbols differ and both lie within the button |
| SolidButtons.InstalledTheme | solidbuttons.cpp:212-223 | application-menu and menu buttons install the icon-only theme; every class starts from its type's default theme |
| ButtonFactory.VariantFor | buttonfactory.cpp:15-50 | the seven handled types get their own class, each for its own type; every other type gets a plain solid button |
| ButtonFactory.HandledType | buttonfactory.cpp:20-46 | the plain class handles no particular type; each specialised class exactly one |
| ButtonFactory.SpecialisedVariantsInjective | buttonfactory.cpp:20-46 | no two types share a specialised class |
| ButtonFactory.VariantForOnto | buttonfactory.cpp:20-46 | every button class is built for some type |
| ButtonFactory.FactoryThemes | buttonfactory.cpp:20-46 | factory buttons are icon-only exactly for the two menu types and otherwise carry their type's default theme |
| ButtonFactory.GetButtonGroupInstance | buttonfactory.cpp:15-50 | a new button of the type's class, with its installed theme and no flag |
| ButtonFactory.GetPluginInstance | buttonfactory.cpp:52-57 | a new plain standalone button with an unset icon size, whatever the type |
| Animations.Start | solidbutton.cpp:188-193 | starting leaves a running animation alone and rewinds a stopped one to the start of its direction |
| Animations.Stop | solidbutton.cpp:184-185 | stopping halts the animation where it is |
| Animations.Advance | solidbutton.cpp:49-54 | a clock step moves the value and stops the animation exactly when it reaches the end of its direction |
| Button.AnimationAfterUpdate | solidbutton.cpp:178-194 | the direction follows the request; the animation runs afterwards exactly when it already ran that way or is away from the requested end |
| Button.AtEndNotStarted | solidbutton.cpp:188-193 | an animation resting at the requested end is only turned, not started |
| Button.UpdateIdempotent | solidbutton.cpp:178-194 | asking twice for the same direction is the same as asking once |
| Button.ReversalRestartsFromFarEnd | solidbutton.cpp:184-193 | reversing a running animation stops and restarts it from the start value of the new direction |
| Button.UpdateHeadsForEnd | solidbutton.cpp:178-194 | after an update the animation either runs or already rests at the requested end |
| Button.OuterRadius | solidbutton.cpp:136-138 | the circle's radius is 7 when pressed or at rest and grows to 8 (checked) or 8.5 with the animation |
| Button.OuterRadiusMonotone | solidbutton.cpp:136-138 | the radius never shrinks as the animation value grows |
| Button.SymbolRadius | solidbutton.cpp:166 | the symbol radius grows from 1.5 to 3 with the animation |
| Button.SymbolInsideCircle | solidbutton.cpp:136-166 | the symbol always fits inside the unpressed circle |
| Button.SolidButton.constructor | solidbutton.cpp:37-81 | a new button has the class's installed theme, square geometry and icon of the button height, zero opacity and a stopped animation |
| Button.SolidButton.Standalone | solidbutton.cpp:83-92 | a standalone button is plain, flagged standalone and has no valid icon size |
| Button.SolidButton.SetFlag | solidbutton.h:64-67 | only the flag changes |
| Button.SolidButton.SetOffset | solidbutton.h:91-94 | only the offset changes |
| Button.SolidButton.SetIconSize | solidbutton.h:107-110 | only the icon size changes |
| Button.SolidButton.SetOpacity | solidbutton.h:117-122 | the opacity takes the value, with a repaint exactly when it changed |
| Button.SolidButton.UpdateAnimationState | solidbutton.cpp:178-194 | with animations enabled the animation follows `AnimationAfterUpdate` and a started animation shows its start value; otherwise nothing changes |
| Button.SolidButton.AnimationTick | solidbutton.cpp:52-54 | a clock step advances the animation and the opacity follows its value, with one repaint exactly when the opacity changes |
| Button.SolidButton.HoveredChanged | solidbutton.cpp:68-72 | hovering animates forward and leaving animates backward, unless the button is pressed; a started animation's start value becomes the opacity, with a repaint when that changes it, and otherwise opacity and repaints are kept |
| Button.SolidButton.PressedChanged | solidbutton.cpp:73-78 | a press while hovered animates backward; a release of a checked button animates forward; otherwise the animation is untouched; a started animation's start value becomes the opacity, with a repaint when that changes it |
| Button.SolidButton.GetState | solidbutton.cpp:196-207 | the state reports the window's activity, the button's own flags, and animating exactly when the animation runs |
| Button.SolidButton.Draw | solidbutton.cpp:132-161 | an ellipse of the animated radius is painted when the theme shows a fill or an outline, filled in the theme's fill colour and outlined in its border colour exactly when it shows them; the symbol as the theme says |
| Button.SolidButton.PaintTranslation | solidbutton.cpp:104-107 | the first button in a list is moved by its full offset, the others only vertically |
| Button.SolidButton.PrepareIconSize | solidbutton.cpp:110-111 | an unset icon size becomes the button's geometry; a set one is kept |
| Button.MenuButtonsDrawOnlySymbol | solidbutton.cpp:140-160 | menu buttons paint no ellipse, only their icon |
| Button.PressedButtonHasNoOutline | solidbutton.cpp:136-152 | a pressed default button paints an unoutlined circle of radius 7 |
| DecorationState.TruncDiv | breezedecoration.cpp:642-646 | integer division rounds toward zero as in C++ |
| DecorationState.BorderSettingOverridesEdges | breezedecoration.h:106-149 | drawing borders on maximised windows switches every maximised and edge predicate off |
| DecorationState.EdgesFromMaximisation | breezedecoration.h:127-149 | otherwise a side is an edge exactly when the window is maximised across it or touches that screen edge |
| DecorationState.ShadedShowsTitleBar | breezedecoration.h:151-154 | a shaded window always shows its title bar |
| DecorationState.BorderSizeSetting | breezedecoration.h:180-194 | the window-specific border size overrides the host's when the override is set |
| DecorationState.BorderSizeFor | breezedecoration.cpp:332-368 | the border width for each size code; unknown codes behave as tiny; the bottom keeps at least 4 for tiny and no-sides |
| DecorationState.UnknownBorderSizeIsTiny | breezedecoration.cpp:341-342 | an unknown border-size code gives the tiny size |
| DecorationState.BorderSizesIncrease | breezedecoration.cpp:332-368 | from tiny to oversized each size is strictly wider than the one before when the spacing is at least 4 |
| DecorationState.BottomAtLeastSide | breezedecoration.cpp:332-368 | the bottom border is never narrower than a side border |
| DecorationState.GetBorderSize | breezedecoration.cpp:332-368 | no borders gives 0 everywhere, no side borders gives 0 at the sides; otherwise the table entry for the effective setting |
| DecorationState.ButtonHeightFor | breezedecoration.cpp:636-648 | button heights are 1, 1.5, 2, 2.5 and 3.5 grid units, truncated; unknown codes take the default |
| DecorationState.ButtonHeightsOrdered | breezedecoration.cpp:636-648 | button heights increase from tiny to very large and are exact on even grid units |
| DecorationState.GetButtonHeight | breezedecoration.cpp:636-648 | the height follows the configured button-size code and lies between one and three and a half grid units |
| DecorationState.OpacityPercent | breezedecoration.h:196-205 | the opacity override wins when set; either value is clamped to [0, 100] |
| DecorationState.GetTitleBarAlpha | breezedecoration.h:196-205 | the alpha is 255 for an opaque title bar and otherwise the nearest integer to 2.55 times the opacity percent |
| DecorationState.TitleBarAlphaScale | breezedecoration.h:196-205 | 0 percent gives alpha 0, 100 gives 255, and the alpha never falls as the percentage grows |
| DecorationState.OverrideWins | breezedecoration.h:196-205 | with an override set, the background opacity setting has no effect |
| DecorationState.ShadowTablePattern | breezedecoration.cpp:105-128 | the four visible shadow sizes follow one pattern of offset, blur radius and opacity |
| DecorationState.LookupShadowParams | breezedecoration.cpp:130-147 | known size codes index the table, unknown codes fall back to large; the parameters are empty exactly for "none" |
| DecorationState.ShadowGrowsWithSize | breezedecoration.cpp:105-147 | a larger shadow size has a larger blur and a larger offset |
| DecorationState.LayerAlpha | breezedecoration.cpp:743-747 | full strength keeps a layer's opacity; lower strengths scale it down, never above it |
| DecorationState.MoveCenter | breezedecoration.cpp:754-764 | moving a rectangle's centre keeps its size and places it as the toolkit's inclusive-edge rectangles do |
| DecorationState.ShadowPaddingSum | breezedecoration.cpp:754-764 | the paddings on opposite sides add up to the outer size minus the box size and twice the overlap |
| DecorationState.ShadowPaddingCentred | breezedecoration.cpp:754-764 | opposite paddings are balanced up to one pixel, once the shadow offset is accounted for |
| DecorationState.Borders | breezedecoration.cpp:386-411 | side and bottom borders vanish on screen edges (and the bottom when shaded); the top fits the caption and buttons, or equals the bottom when the title bar is hidden |
| DecorationState.MaximisedHasNoFrame | breezedecoration.cpp:386-411 | a fully maximised window has no side or bottom border |
| DecorationState.TitleBarFitsCaptionAndButtons | breezedecoration.cpp:396-409 | a visible title bar is taller than both the font and the buttons |
| DecorationState.ResizeOnlyBorders | breezedecoration.cpp:413-430 | without borders the resize areas take the large spacing, except across a maximised direction; with borders there are none |
| DecorationState.ResizeAreasReplaceBorders | breezedecoration.cpp:332-430 | where a resize-only area exists, the visible border on that side is zero |
| DecorationState.TitleBarColor | breezedecoration.cpp:258-275 | a sampled colour wins; a hidden title bar uses the inactive colour; otherwise the active or inactive colour, mixed while animating |
| DecorationState.SampledColorWins | breezedecoration.cpp:258-275 | once a colour has been sampled, the title bar shows exactly it when not animating |
| DecorationState.FontColor | breezedecoration.cpp:277-293 | on a sampled title bar text contrasts with it when active and is its inactive grey otherwise; the palette colours are used without a sample; during a transition the inactive colour is mixed towards the active one by the progress |
| DecorationState.InactiveTextIsGray | breezedecoration.cpp:277-293 | inactive text on a sampled title bar is a grey of level at least 115 |
| Decoration.ShadowTexture.constructor | breezedecoration.cpp:786-789 | a shadow keeps the parameters, strength, colour, padding and inner rectangle it was built with |
| Decoration.ShadowCache.constructor | breezedecoration.cpp:152-156 | the shared cache starts at the large size, strength 255, black, with no shadow and no decorations |
| Decoration.Decoration.constructor | breezedecoration.cpp:160-165 | creating a decoration adds one to the shared count and starts with no sampled colour and a stopped animation |
| Decoration.Decoration.Destroy | breezedecoration.cpp:167-177 | destroying a decoration subtracts one from the shared count and drops the shared shadow when it reaches zero |
| Decoration.Decoration.AttachClientUtil | breezedecoration.cpp:236-237 | the decoration gains its pixel sampler |
| Decoration.Decoration.CreateShadow | breezedecoration.cpp:711-793 | the shared shadow is rebuilt only when missing or when size, strength or colour changed, with the table's parameters, the settings' strength and colour, the computed padding and a 1×1 inner rectangle at the texture's centre; it is cleared for "none", and the decoration uses the shared one |
| Decoration.Decoration.SetOpacity | breezedecoration.cpp:249-256 | the opacity takes the value, with a repaint exactly when it changed |
| Decoration.Decoration.UpdateTitleBarColor | breezedecoration.cpp:305-319 | an active window with a sampler takes the top-line mode as its colour; a repaint happens exactly when the colour changed |
| Decoration.Decoration.UpdateAnimationState | breezedecoration.cpp:321-330 | with animations enabled the animation runs toward the window's activity, a stopped one from its start, whose value becomes the opacity with one repaint exactly when that changes it; otherwise only a repaint |
| Decoration.Decoration.AnimationTick | breezedecoration.cpp:189-191 | a clock step advances the animation and the opacity follows its value, with one repaint exactly when the opacity changes |
| Decoration.Decoration.RecalculateBorders | breezedecoration.cpp:384-431 | the stored borders and resize-only borders become those the settings and client state determine |
| Decoration.Decoration.GetTitleBarColor | breezedecoration.cpp:258-275 | the colour uses the sampled title-bar colour when present, otherwise the palette, with the opacity as mixing progress |
| Decoration.Decoration.GetFontColor | breezedecoration.cpp:277-293 | on a sampled, settled title bar the text is the dark text colour on a light bar and the light one on a dark bar when active, and a grey of level at least 115 when inactive; during a transition the opacity is the mixing progress |
| Decoration.SharedShadow | breezedecoration.cpp:711-793 | two decorations with the same shadow settings end up holding the same shadow object |

## Left out

- Capturing the window's pixels through the X server (composite redirection, XRender, XGetImage) is an input: `TopLineColor` receives the captured image, or none when the capture failed.
- The alpha channel of captured pixels is not modelled; colours are red, green and blue only.
- Lighter, darker, tint and mix are kept as terms of a free datatype; their arithmetic is not modelled.
- Two different colour terms may denote the same colour (the darker of black is black, a mix of a colour with itself is that colour), so a disequality between `ColorExpr` terms is not a disequality between painted colours.
- DecorationState.GetTitleBarAlpha: claims only that the alpha is the nearest integer to 2.55 times the percentage, because which way the floating-point product rounds at exact halves is not modelled.
- Util.PerceptiveLuminance: computed exactly in rationals; the source's double arithmetic can differ at luminances within rounding error of 0.5.
- Painting with QPainter (rounded rectangles, gradients, caption text, the icon pixmap) and the box-shadow renderer are left out; the shadow's box and outer sizes are inputs to `CreateShadow`.
- Timers, easing curves and durations of animations are left out; each clock step receives the new value.
- Signal and slot wiring in the decoration's initialisation is left out; the handlers are modelled as methods that the host calls.
- The button constructor's exit on a decoration that is not a Breeze decoration is left out; the constructor takes the button height directly.
- The icon-loader palette swap around icon painting in the menu button is left out.
- The null check on the window-specific settings is left out; settings are always present.
- The plugin registration macro is left out.
- The static symbol geometry of the keep-below and application-menu buttons, and the icon painting of the menu button, are left out.
- The layout constants of breeze.h are not part of this model; they are a parameter record (`Metrics`).
- The caption rectangle, title-bar and button-group geometry updates, and reconfiguration of the animation duration are left out.
- Enumeration codes of the settings are assumed to follow declaration order.
- `Decoration.SharedShadow` is a scenario method showing the sharing of the shadow cache; it has no counterpart in the source.
