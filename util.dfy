/**
 * Colour helpers shared by the decoration and its buttons: the grey used for
 * inactive elements and the perceptive luminance that decides whether a
 * title bar counts as "light".
 *
 * Colours are opaque RGB triples with 8-bit channels. The colour operations
 * of the toolkit (lighter, darker, tint, mix) are not computed here: a
 * `ColorExpr` records which of them is applied to what. Equal terms denote
 * equal colours, but different terms may denote the same colour (the darker
 * of black is black), so only equalities between terms say something about
 * the colours painted.
 */
module Util {

  /** One 8-bit colour channel. */
  type Channel = x: int | 0 <= x <= 255

  /** An opaque RGB colour. */
  datatype Color = Color(r: Channel, g: Channel, b: Channel)

  /** A value that may be absent; an absent colour is the toolkit's invalid colour. */
  datatype Option<T> = None | Some(value: T)

  const Black := Color(0, 0, 0)
  const White := Color(255, 255, 255)

  /** A colour all of whose channels are the same. */
  predicate IsGray(c: Color) {
    c.r == c.g == c.b
  }

  function Max(a: int, b: int): int {
    if a < b then b else a
  }

  function Min(a: int, b: int): int {
    if a < b then a else b
  }

  /** The toolkit's grey value of a colour: the weighted sum (11 r + 16 g + 5 b) / 32. */
  function Gray(c: Color): (v: Channel)
    ensures IsGray(c) ==> v == c.r
  {
    (c.r * 11 + c.g * 16 + c.b * 5) / 32
  }

  /**
   * The grey level used for inactive elements: a grey of at most 200 is
   * lifted by 55 and to no less than 115; a lighter one is lowered by 45.
   */
  function InactiveGray(gray: Channel): (out: Channel)
    ensures 115 <= out
    ensures out != gray
    ensures gray <= 200 <==> out > gray
    ensures gray <= 200 ==> out >= gray + 55 && (out == 115 || out == gray + 55)
    ensures gray > 200 ==> out + 45 == gray
  {
    if gray <= 200 then Max(gray + 55, 115) else gray - 45
  }

  /** The neutral grey an inactive title bar or text gets from a colour. */
  function InactiveGrayFrom(c: Color): (out: Color)
    ensures IsGray(out)
    ensures 115 <= out.r
    ensures out.r == InactiveGray(Gray(c))
  {
    var gray := InactiveGray(Gray(c));
    Color(gray, gray, gray)
  }

  /** The examples of the design: 220 goes to 175, 100 to 155 and 50 up to the floor 115. */
  lemma InactiveGrayExamples()
    ensures InactiveGray(220) == 175
    ensures InactiveGray(100) == 155
    ensures InactiveGray(50) == 115
    ensures InactiveGrayFrom(Color(50, 50, 50)) == Color(115, 115, 115)
  {
  }

  /**
   * Perceptive luminance, (0.299 R + 0.587 G + 0.114 B) / 255, held as the
   * exact integer weight 299 R + 587 G + 114 B out of 255000.
   */
  function LuminanceWeight(c: Color): (w: nat)
    ensures w <= 255000
  {
    299 * c.r + 587 * c.g + 114 * c.b
  }

  function PerceptiveLuminance(c: Color): (l: real)
    ensures 0.0 <= l <= 1.0
    ensures c == Black ==> l == 0.0
    ensures c == White ==> l == 1.0
    ensures l * 255000.0 == LuminanceWeight(c) as real
  {
    LuminanceWeight(c) as real / 255000.0
  }

  /** A colour is light when its perceptive luminance is above one half. */
  predicate IsLight(c: Color) {
    LuminanceWeight(c) > 127500
  }

  lemma IsLightIsAboveHalf(c: Color)
    ensures IsLight(c) <==> PerceptiveLuminance(c) > 0.5
  {
  }

  /** Raising any channel never lowers the luminance. */
  lemma LuminanceMonotone(c: Color, d: Color)
    requires c.r <= d.r && c.g <= d.g && c.b <= d.b
    ensures PerceptiveLuminance(c) <= PerceptiveLuminance(d)
    ensures IsLight(c) ==> IsLight(d)
  {
  }

  /**
   * A colour computed by the toolkit's colour operations, kept as the term
   * that computes it: `Lighter(e, f)` and `Darker(e, f)` are QColor's
   * lighter/darker with factor f (in percent), `Tint(e, t)` tints e towards
   * t, and `Mix(a, b, amount)` blends a into b by `amount` in [0, 1].
   */
  datatype ColorExpr =
    | Rgb(color: Color)
    | Lighter(inner: ColorExpr, factor: int)
    | Darker(inner: ColorExpr, factor: int)
    | Tint(inner: ColorExpr, tint: Color)
    | Mix(from: Color, to: Color, amount: real)

  /** The plain colours a colour term is computed from. */
  function Sources(e: ColorExpr): (s: set<Color>)
    ensures s != {}
  {
    match e
    case Rgb(c) => {c}
    case Lighter(inner, _) => Sources(inner)
    case Darker(inner, _) => Sources(inner)
    case Tint(inner, t) => Sources(inner) + {t}
    case Mix(a, b, _) => {a, b}
  }
}
