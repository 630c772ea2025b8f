/**
 * The toolkit animation object that drives button and title-bar transitions,
 * reduced to what the decoration relies on: a direction, whether it runs,
 * and its current value, which goes from 0.0 to 1.0. Starting a stopped
 * animation rewinds it to the beginning of its direction, as the toolkit
 * documents; timing and easing are not modelled.
 */
module Animations {

  datatype Direction = Forward | Backward

  datatype Animation = Animation(direction: Direction, running: bool, value: real)

  /** The value stays within the start value 0.0 and the end value 1.0. */
  predicate InRange(a: Animation) {
    0.0 <= a.value <= 1.0
  }

  /** The value a run in the given direction ends at. */
  function EndValue(d: Direction): (v: real)
    ensures v == 0.0 || v == 1.0
  {
    if d == Forward then 1.0 else 0.0
  }

  /** The value a run in the given direction starts from: the other end. */
  function StartValue(d: Direction): (v: real)
    ensures v != EndValue(d)
    ensures v + EndValue(d) == 1.0
  {
    if d == Forward then 0.0 else 1.0
  }

  function DirectionOf(forward: bool): (d: Direction)
    ensures d == Forward <==> forward
  {
    if forward then Forward else Backward
  }

  /** A fresh animation: stopped at the start value, going forward. */
  const Initial := Animation(Forward, false, 0.0)

  /** start(): a stopped animation is rewound and runs; a running one is left alone. */
  function Start(a: Animation): (b: Animation)
    ensures b.running && b.direction == a.direction
    ensures a.running ==> b == a
    ensures !a.running ==> b.value == StartValue(a.direction)
    ensures InRange(a) ==> InRange(b)
  {
    if a.running then a else Animation(a.direction, true, StartValue(a.direction))
  }

  /** stop(): the animation halts where it is. */
  function Stop(a: Animation): (b: Animation)
    ensures !b.running && b.direction == a.direction && b.value == a.value
  {
    a.(running := false)
  }

  /**
   * One step of the clock: the running animation moves to the value v in
   * [0, 1] that the host's timing and easing give, and stops once it
   * reaches the end value of its direction.
   */
  function Advance(a: Animation, v: real): (b: Animation)
    requires a.running && 0.0 <= v <= 1.0
    ensures b.value == v && b.direction == a.direction && InRange(b)
    ensures b.running <==> v != EndValue(a.direction)
  {
    Animation(a.direction, v != EndValue(a.direction), v)
  }
}
