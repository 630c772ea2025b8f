/**
 * The title-bar colour sampler: the most frequent colour of a captured strip
 * of the window, and the clamp applied to the requested capture size.
 *
 * The capture itself (compositing redirection, screen grab) is platform I/O
 * and is not modelled: the captured image is an input, `null` when the
 * capture failed. Pixel (x, y) of the image is `image[y, x]`, so
 * `image.Length0` is its height and `image.Length1` its width.
 */
module ClientUtil {
  import opened Util

  /**
   * The side of the capture for a requested side and the window's actual
   * side: a negative request keeps the actual side, any other request is
   * bounded by the actual side and raised to at least one pixel.
   */
  function CaptureExtent(requested: int, actual: int): (r: int)
    ensures requested < 0 ==> r == actual
    ensures requested >= 0 ==> r >= 1
    ensures requested >= 0 ==> r <= Max(1, requested) && r <= Max(1, actual)
    ensures 1 <= requested <= actual ==> r == requested
    ensures 1 <= actual <= requested ==> r == actual
  {
    if requested >= 0 then Max(1, Min(actual, requested)) else actual
  }

  /** The sampler asks for the full width and the top two rows. */
  lemma TopLineCaptureExtent(width: int, height: int)
    ensures CaptureExtent(-1, width) == width
    ensures 1 <= CaptureExtent(2, height) <= 2
    ensures height >= 2 ==> CaptureExtent(2, height) == 2
  {
  }

  // ---------------------------------------------------------------------
  // Counting colours in a sequence of pixels.

  /** The number of times `c` occurs in `s`. */
  function Occurrences(s: seq<Color>, c: Color): (n: nat)
    ensures n <= |s|
    ensures n > 0 <==> c in s
  {
    if |s| == 0 then 0
    else
      assert s == s[..|s| - 1] + [s[|s| - 1]];
      Occurrences(s[..|s| - 1], c) + (if s[|s| - 1] == c then 1 else 0)
  }

  /** The count of `s[k]` at the moment the scan reaches position k. */
  function RunCount(s: seq<Color>, k: nat): (n: nat)
    requires k < |s|
    ensures 1 <= n <= k + 1
  {
    Occurrences(s[..k + 1], s[k])
  }

  /** The largest running count met while scanning `s`. */
  function MaxCount(s: seq<Color>): (m: nat)
    ensures m <= |s|
    ensures m == 0 <==> |s| == 0
  {
    if |s| == 0 then 0 else Max(MaxCount(s[..|s| - 1]), RunCount(s, |s| - 1))
  }

  /**
   * Position k is where some colour's running count first reaches the
   * largest count of the whole scan.
   */
  predicate FirstReachesMax(s: seq<Color>, k: nat) {
    k < |s| && RunCount(s, k) == MaxCount(s)
    && forall j :: 0 <= j < k ==> RunCount(s, j) < MaxCount(s)
  }

  /**
   * The dictionary of counts after scanning `s`: each pixel adds one to
   * its colour's entry, inserting the entry with count one when absent.
   */
  function CountMap(s: seq<Color>): (m: map<Color, nat>)
  {
    if |s| == 0 then map[]
    else
      var m := CountMap(s[..|s| - 1]);
      var x := s[|s| - 1];
      if x !in m then m[x := 1] else m[x := m[x] + 1]
  }

  /** The sum of the counts of a dictionary of counts. */
  ghost function SumCounts(m: map<Color, nat>): nat
    decreases |m|
  {
    if |m| == 0 then 0
    else
      var c := Pick(m);
      m[c] + SumCounts(m - {c})
  }

  /** Some key of a non-empty dictionary. */
  ghost function Pick(m: map<Color, nat>): (c: Color)
    requires |m| > 0
    ensures c in m
  {
    var c :| c in m; c
  }

  lemma {:induction false} OccurrencesSnoc(s: seq<Color>, x: Color, c: Color)
    ensures Occurrences(s + [x], c) == Occurrences(s, c) + (if x == c then 1 else 0)
  {
    assert (s + [x])[..|s|] == s;
  }

  lemma {:induction false} OccurrencesPrefix(s: seq<Color>, n: nat, c: Color)
    requires n <= |s|
    ensures Occurrences(s[..n], c) <= Occurrences(s, c)
    decreases |s|
  {
    if n < |s| {
      var t := s[..|s| - 1];
      assert t[..n] == s[..n];
      OccurrencesPrefix(t, n, c);
      OccurrencesSnoc(t, s[|s| - 1], c);
      assert t + [s[|s| - 1]] == s;
    } else {
      assert s[..n] == s;
    }
  }

  /** Running counts already met do not change when the scan goes on. */
  lemma RunCountSnoc(s: seq<Color>, x: Color, k: nat)
    requires k < |s|
    ensures RunCount(s + [x], k) == RunCount(s, k)
  {
    assert (s + [x])[..k + 1] == s[..k + 1];
  }

  /** Every running count is at most the largest one. */
  lemma {:induction false} RunCountBounded(s: seq<Color>, k: nat)
    requires k < |s|
    ensures RunCount(s, k) <= MaxCount(s)
    decreases |s|
  {
    if k < |s| - 1 {
      var t := s[..|s| - 1];
      assert t + [s[|s| - 1]] == s;
      RunCountSnoc(t, s[|s| - 1], k);
      RunCountBounded(t, k);
    }
  }

  /** No colour occurs more often than the largest running count. */
  lemma {:induction false} MaxCountBoundsOccurrences(s: seq<Color>, c: Color)
    ensures Occurrences(s, c) <= MaxCount(s)
    decreases |s|
  {
    if |s| > 0 {
      var t := s[..|s| - 1];
      var x := s[|s| - 1];
      assert t + [x] == s;
      OccurrencesSnoc(t, x, c);
      if x == c {
        assert s[..|s|] == s;
      } else {
        MaxCountBoundsOccurrences(t, c);
      }
    }
  }

  /** The running best count never decreases: scanning further can only raise it. */
  lemma {:induction false} MaxCountMonotone(s: seq<Color>, n: nat)
    requires n <= |s|
    ensures MaxCount(s[..n]) <= MaxCount(s)
    decreases |s|
  {
    if n < |s| {
      var t := s[..|s| - 1];
      assert t[..n] == s[..n];
      MaxCountMonotone(t, n);
    } else {
      assert s[..n] == s;
    }
  }

  /** The colour that first reaches the largest count is a most frequent colour. */
  lemma FirstReachIsMode(s: seq<Color>, k: nat)
    requires FirstReachesMax(s, k)
    ensures Occurrences(s, s[k]) == MaxCount(s)
    ensures forall c :: Occurrences(s, c) <= Occurrences(s, s[k])
  {
    OccurrencesPrefix(s, k + 1, s[k]);
    MaxCountBoundsOccurrences(s, s[k]);
    forall c ensures Occurrences(s, c) <= Occurrences(s, s[k]) {
      MaxCountBoundsOccurrences(s, c);
    }
  }

  /** At most one position first reaches the largest count. */
  lemma FirstReachUnique(s: seq<Color>, k1: nat, k2: nat)
    requires FirstReachesMax(s, k1) && FirstReachesMax(s, k2)
    ensures k1 == k2
  {
  }

  lemma CountMapSnoc(s: seq<Color>, x: Color)
    ensures CountMap(s + [x]) == if x !in CountMap(s) then CountMap(s)[x := 1] else CountMap(s)[x := CountMap(s)[x] + 1]
  {
    assert (s + [x])[..|s|] == s;
  }

  /** The dictionary holds exactly the colours that occur, each with its number of occurrences. */
  lemma {:induction false} CountMapAt(s: seq<Color>, c: Color)
    ensures c in CountMap(s) <==> Occurrences(s, c) > 0
    ensures c in CountMap(s) ==> CountMap(s)[c] == Occurrences(s, c)
    decreases |s|
  {
    if |s| > 0 {
      var t, x := s[..|s| - 1], s[|s| - 1];
      assert t + [x] == s;
      CountMapAt(t, c);
      CountMapSnoc(t, x);
      OccurrencesSnoc(t, x, c);
    }
  }

  /** The sum of a dictionary splits into any one entry and the rest. */
  lemma {:induction false} SumCountsRemove(m: map<Color, nat>, c: Color)
    requires c in m
    ensures SumCounts(m) == m[c] + SumCounts(m - {c})
    decreases |m|
  {
    var x := Pick(m);
    if x != c {
      assert |m - {x}| < |m|;
      assert |m - {c}| < |m|;
      SumCountsRemove(m - {x}, c);
      SumCountsRemove(m - {c}, x);
      assert m - {x} - {c} == m - {c} - {x};
    }
  }

  /** Setting one entry replaces its share of the sum. */
  lemma SumCountsAssign(m: map<Color, nat>, c: Color, v: nat)
    ensures SumCounts(m[c := v]) == SumCounts(m - {c}) + v
  {
    var m' := m[c := v];
    SumCountsRemove(m', c);
    assert m' - {c} == m - {c};
  }

  /** Counting one more colour adds one to the sum, whether or not the colour was present. */
  lemma SumCountsBump(m: map<Color, nat>, x: Color)
    ensures SumCounts(if x !in m then m[x := 1] else m[x := m[x] + 1]) == SumCounts(m) + 1
  {
    if x in m {
      var n := m[x];
      SumCountsAssign(m, x, n + 1);
      SumCountsRemove(m, x);
      assert SumCounts(m[x := n + 1]) == SumCounts(m) + 1;
    } else {
      SumCountsAssign(m, x, 1);
      SumCountsAbsent(m, x);
    }
  }

  lemma SumCountsAbsent(m: map<Color, nat>, x: Color)
    requires x !in m
    ensures SumCounts(m - {x}) == SumCounts(m)
  {
    assert m - {x} == m;
  }

  /** After a scan the counts add up to the number of pixels scanned. */
  lemma {:induction false} CountMapTotal(s: seq<Color>)
    ensures SumCounts(CountMap(s)) == |s|
    decreases |s|
  {
    if |s| > 0 {
      var t, x := s[..|s| - 1], s[|s| - 1];
      assert t + [x] == s;
      CountMapTotal(t);
      CountMapSnoc(t, x);
      SumCountsBump(CountMap(t), x);
    }
  }

  // ---------------------------------------------------------------------
  // The image and its pixels in scan order.

  /**
   * The pixels of the first `rows` rows of the image in row-major order
   * (`rows` at most the height).
   */
  ghost function Scan(image: array2<Color>, rows: nat): (s: seq<Color>)
    requires rows <= image.Length0
    reads image
    decreases rows, 0, 0
  {
    if rows == 0 then [] else ScanTo(image, rows - 1, image.Length1)
  }

  /** The pixels before pixel (x, y) in row-major order. */
  ghost function ScanTo(image: array2<Color>, y: nat, x: nat): (s: seq<Color>)
    requires y < image.Length0 && x <= image.Length1
    reads image
    decreases y, x, 1
  {
    if x == 0 then Scan(image, y) else ScanTo(image, y, x - 1) + [image[y, x - 1]]
  }

  /** All pixels of the image in row-major order. */
  ghost function Pixels(image: array2<Color>): seq<Color>
    reads image
  {
    Scan(image, image.Length0)
  }

  lemma ScanToSnoc(image: array2<Color>, y: nat, x: nat)
    requires y < image.Length0 && x < image.Length1
    ensures ScanTo(image, y, x + 1) == ScanTo(image, y, x) + [image[y, x]]
  {
  }

  lemma {:induction false} ScanLength(image: array2<Color>, rows: nat)
    requires rows <= image.Length0
    ensures |Scan(image, rows)| == rows * image.Length1
    decreases rows, 0, 0
  {
    if rows > 0 {
      ScanToLength(image, rows - 1, image.Length1);
    }
  }

  lemma {:induction false} ScanToLength(image: array2<Color>, y: nat, x: nat)
    requires y < image.Length0 && x <= image.Length1
    ensures |ScanTo(image, y, x)| == y * image.Length1 + x
    decreases y, x, 1
  {
    if x == 0 {
      ScanLength(image, y);
    } else {
      ScanToLength(image, y, x - 1);
    }
  }

  /** The image's counts add up to width times height. */
  lemma PixelCountsTotal(image: array2<Color>)
    ensures SumCounts(CountMap(Pixels(image))) == image.Length0 * image.Length1
  {
    ScanLength(image, image.Length0);
    CountMapTotal(Pixels(image));
  }

  /** Appending a pixel: its running count is one more than before, and the best count takes it in. */
  lemma {:induction false} SnocRunCount(seen: seq<Color>, x: Color)
    ensures RunCount(seen + [x], |seen|) == Occurrences(seen, x) + 1
    ensures MaxCount(seen + [x]) == Max(MaxCount(seen), Occurrences(seen, x) + 1)
  {
    var seen' := seen + [x];
    assert seen'[..|seen| + 1] == seen';
    assert seen'[..|seen|] == seen;
    OccurrencesSnoc(seen, x, x);
  }

  /** Appending a pixel leaves the running counts of earlier positions as they were. */
  lemma SnocEarlierCounts(seen: seq<Color>, x: Color)
    ensures forall j :: 0 <= j < |seen| ==> RunCount(seen + [x], j) == RunCount(seen, j) <= MaxCount(seen)
  {
    forall j | 0 <= j < |seen|
      ensures RunCount(seen + [x], j) == RunCount(seen, j) <= MaxCount(seen)
    {
      RunCountSnoc(seen, x, j);
      RunCountBounded(seen, j);
    }
  }

  /** One step of the scan keeps the dictionary and the running best in step with the pixels seen. */
  lemma ScanStep(seen: seq<Color>, x: Color, best: Color, bestAt: nat, bestCount: nat)
    requires bestCount == MaxCount(seen)
    requires |seen| > 0 ==> bestAt < |seen| && best == seen[bestAt] && FirstReachesMax(seen, bestAt)
    ensures Occurrences(seen, x) + 1 == RunCount(seen + [x], |seen|)
    ensures Occurrences(seen, x) + 1 > bestCount ==>
      MaxCount(seen + [x]) == Occurrences(seen, x) + 1 && FirstReachesMax(seen + [x], |seen|)
    ensures Occurrences(seen, x) + 1 <= bestCount ==>
      MaxCount(seen + [x]) == bestCount && FirstReachesMax(seen + [x], bestAt) && best == (seen + [x])[bestAt]
  {
    SnocRunCount(seen, x);
    SnocEarlierCounts(seen, x);
  }

  /**
   * What the scan keeps once it has seen the pixels `seen`: a count for
   * every colour seen, the largest running count, and the colour and
   * position that first reached it (black before any pixel).
   */
  ghost predicate Tracks(seen: seq<Color>, counts: map<Color, nat>, best: Color, bestCount: nat, bestAt: nat) {
    counts == CountMap(seen)
    && bestCount == MaxCount(seen)
    && (|seen| == 0 ==> best == Black)
    && (|seen| > 0 ==> bestAt < |seen| && best == seen[bestAt] && FirstReachesMax(seen, bestAt))
  }

  /** One step of the scan, as the loop performs it, keeps `Tracks`. */
  lemma TracksStep(seen: seq<Color>, x: Color,
                   counts: map<Color, nat>, best: Color, bestCount: nat, bestAt: nat,
                   counts': map<Color, nat>, best': Color, bestCount': nat, bestAt': nat)
    requires Tracks(seen, counts, best, bestCount, bestAt)
    requires counts' == counts[x := if x in counts then counts[x] + 1 else 1]
    requires counts'[x] > bestCount ==> best' == x && bestCount' == counts'[x] && bestAt' == |seen|
    requires counts'[x] <= bestCount ==> best' == best && bestCount' == bestCount && bestAt' == bestAt
    ensures Tracks(seen + [x], counts', best', bestCount', bestAt')
  {
    ScanStep(seen, x, best, bestAt, bestCount);
    CountMapSnoc(seen, x);
    CountMapAt(seen, x);
  }

  /** What the finished scan has established about its result. */
  lemma TracksFinal(seen: seq<Color>, counts: map<Color, nat>, best: Color, bestCount: nat, bestAt: nat)
    requires Tracks(seen, counts, best, bestCount, bestAt)
    ensures |seen| == 0 ==> best == Black
    ensures |seen| > 0 ==>
      best in seen
      && (forall c :: Occurrences(seen, c) <= Occurrences(seen, best))
      && exists k: nat :: FirstReachesMax(seen, k) && seen[k] == best
  {
    if |seen| > 0 {
      FirstReachIsMode(seen, bestAt);
    }
  }

  /**
   * The colour the scan settles on: black for no pixels, else the colour
   * at the position whose running count first reaches the largest count.
   */
  ghost predicate IsDominant(pixels: seq<Color>, c: Color) {
    if |pixels| == 0 then c == Black
    else exists k: nat :: FirstReachesMax(pixels, k) && pixels[k] == c
  }

  /** The scan's colour is determined by the pixels, and it is a most frequent one. */
  lemma DominantIsUniqueMode(pixels: seq<Color>, c1: Color, c2: Color)
    requires IsDominant(pixels, c1) && IsDominant(pixels, c2)
    ensures c1 == c2
    ensures |pixels| > 0 ==> c1 in pixels && forall c :: Occurrences(pixels, c) <= Occurrences(pixels, c1)
  {
    if |pixels| > 0 {
      var k1: nat :| FirstReachesMax(pixels, k1) && pixels[k1] == c1;
      var k2: nat :| FirstReachesMax(pixels, k2) && pixels[k2] == c2;
      FirstReachUnique(pixels, k1, k2);
      FirstReachIsMode(pixels, k1);
    }
  }

  /**
   * The dominant colour of the captured strip: the most frequent colour,
   * ties going to the colour whose count first reached the final maximum in
   * row-major order. A failed capture gives no colour; a capture without
   * pixels gives black, the colour the running best starts from.
   */
  method TopLineColor(image: array2?<Color>) returns (mode: Option<Color>)
    ensures image == null <==> mode == None
    ensures image != null && |Pixels(image)| == 0 ==> mode == Some(Black)
    ensures image != null && |Pixels(image)| > 0 ==>
      mode.Some? && mode.value in Pixels(image)
      && (forall c :: Occurrences(Pixels(image), c) <= Occurrences(Pixels(image), mode.value))
      && exists k: nat :: FirstReachesMax(Pixels(image), k) && Pixels(image)[k] == mode.value
    ensures image != null ==> mode.Some? && IsDominant(Pixels(image), mode.value)
  {
    if image == null {
      return None;
    }
    var counts: map<Color, nat> := map[];
    var best, bestCount := Black, 0;
    ghost var seen: seq<Color> := [];
    ghost var bestAt: nat := 0;
    var y := 0;
    while y < image.Length0
      invariant 0 <= y <= image.Length0
      invariant seen == Scan(image, y)
      invariant Tracks(seen, counts, best, bestCount, bestAt)
    {
      var x := 0;
      while x < image.Length1
        invariant 0 <= x <= image.Length1
        invariant seen == ScanTo(image, y, x)
        invariant Tracks(seen, counts, best, bestCount, bestAt)
      {
        var color := image[y, x];
        ghost var counts0, best0, bestCount0, bestAt0 := counts, best, bestCount, bestAt;
        if color !in counts {
          counts := counts[color := 1];
        } else {
          counts := counts[color := counts[color] + 1];
        }
        var count := counts[color];
        if count > bestCount {
          best, bestCount := color, count;
          bestAt := |seen|;
        }
        TracksStep(seen, color, counts0, best0, bestCount0, bestAt0, counts, best, bestCount, bestAt);
        ScanToSnoc(image, y, x);
        seen := seen + [color];
        x := x + 1;
      }
      y := y + 1;
    }
    TracksFinal(seen, counts, best, bestCount, bestAt);
    return Some(best);
  }
}
