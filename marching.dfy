/**
 * The marching-squares classifier of src/main.rs: the two glyph tables, the
 * corners of a grid cell and `march`, which turns four corner samples and a
 * threshold into one three-character glyph.
 */
module Marching {
  import opened NoiseFields

  /** A glyph drawn for one cell (`type Cell = &'static str`). */
  type Cell = string

  /** The ASCII glyph table `CASES`, indexed by the 4-bit corner pattern. */
  const CASES: seq<Cell> := [
    "   ",
    "_  ",
    "  _",
    "___",
    " \\_",
    "/ _",
    " | ",
    "_/ ",
    "_/ ",
    " | ",
    "_ \\",
    "  \\",
    "___",
    "  _",
    "_  ",
    "###"
  ]

  /** The Unicode glyph table `UNICODE_CASES`, indexed like CASES. */
  const UNICODE_CASES: seq<Cell> := [
    "   ",
    "─╮ ",
    " ╭─",
    "───",
    " ╰─",
    "╱▞╱",
    " │█",
    "╱▟█",
    "─╯ ",
    "█│ ",
    "╲▚╲",
    "█▙╲",
    "───",
    "█▛╱",
    "╲▜█",
    "███"
  ]

  /**
   * The table `march` selects. Both have 16 entries of exactly three
   * characters (so glyph `ox` fills screen columns 3*ox to 3*ox+2), entry 0
   * is blank and entry 15 is a solid block.
   */
  function Table(unicode: bool): (t: seq<Cell>)
    ensures |t| == 16
    ensures forall i :: 0 <= i < 16 ==> |t[i]| == 3
    ensures t[0] == "   "
    ensures t[15] == if unicode then "███" else "###"
  {
    if unicode then UNICODE_CASES else CASES
  }

  /**
   * `corners`: the four corners of the square of side `width` centred on
   * (x, y), in the order top-left, top-right, bottom-right, bottom-left
   * (the screen's y axis points down).
   */
  function Corners(x: real, y: real, width: real): (r: seq<Point>)
    ensures |r| == 4
    // a square of side `width`, walked clockwise from the top-left corner
    ensures r[0].y == r[1].y && r[1].x == r[2].x && r[2].y == r[3].y && r[3].x == r[0].x
    ensures r[1].x - r[0].x == width && r[2].y - r[1].y == width
    // centred on (x, y)
    ensures r[0].x + r[2].x == 2.0 * x && r[0].y + r[2].y == 2.0 * y
  {
    var w := width / 2.0;
    [Point(x - w, y - w), Point(x + w, y - w), Point(x + w, y + w), Point(x - w, y + w)]
  }

  /** The bit that one corner sample contributes: set iff strictly above. */
  function Bit(s: real, threshold: real): bv8
  {
    if s > threshold then 1 else 0
  }

  /** The weight of corner `k` in the index: the first corner is the high bit. */
  function Weight(k: nat): nat
    requires k < 4
  {
    if k == 0 then 8 else if k == 1 then 4 else if k == 2 then 2 else 1
  }

  /** Whether corner `k`'s bit is set in the index `i`. */
  predicate BitSet(i: nat, k: nat)
    requires k < 4
  {
    i / Weight(k) % 2 == 1
  }

  /**
   * The lookup index as a plain sum: corner k adds Weight(k) when it lies
   * strictly above the threshold.
   */
  function WeightedIndex(samples: seq<real>, threshold: real): nat
    requires |samples| == 4
  {
    (if samples[0] > threshold then 8 else 0) + (if samples[1] > threshold then 4 else 0)
    + (if samples[2] > threshold then 2 else 0) + (if samples[3] > threshold then 1 else 0)
  }

  /**
   * `bits[0] << 3 | bits[1] << 2 | bits[2] << 1 | bits[3]`, with Rust's
   * precedence (shifts bind tighter than `|`) written out.
   */
  function Pack(samples: seq<real>, threshold: real): bv8
    requires |samples| == 4
  {
    (Bit(samples[0], threshold) << 3) | (Bit(samples[1], threshold) << 2)
    | (Bit(samples[2], threshold) << 1) | Bit(samples[3], threshold)
  }

  /** The shifted bits do not overlap, so or-ing them adds their weights. */
  lemma PackIsWeightedIndex(samples: seq<real>, threshold: real)
    requires |samples| == 4
    ensures Pack(samples, threshold) as nat == WeightedIndex(samples, threshold)
  {
    var b0, b1 := Bit(samples[0], threshold), Bit(samples[1], threshold);
    var b2, b3 := Bit(samples[2], threshold), Bit(samples[3], threshold);
    assert b0 <= 1 && b1 <= 1 && b2 <= 1 && b3 <= 1;
    assert Pack(samples, threshold) as nat == 8 * b0 as nat + 4 * b1 as nat + 2 * b2 as nat + b3 as nat;
  }

  /**
   * The lookup index of `march`: the four bits shifted into place and or-ed,
   * first corner most significant. Bit 3-k is set exactly when corner k lies
   * strictly above the threshold.
   */
  function CaseIndex(samples: seq<real>, threshold: real): (i: nat)
    requires |samples| == 4
    ensures i < 16
    ensures forall k :: 0 <= k < 4 ==> (BitSet(i, k) <==> samples[k] > threshold)
  {
    PackIsWeightedIndex(samples, threshold);
    Pack(samples, threshold) as nat
  }

  /**
   * `march`: classifies a cell by its four corner samples. The result is
   * always one of the 16 entries of the selected table and three characters
   * wide.
   */
  function March(samples: seq<real>, threshold: real, unicode: bool): (g: Cell)
    requires |samples| == 4
    ensures g in Table(unicode)
    ensures |g| == 3
  {
    Table(unicode)[CaseIndex(samples, threshold)]
  }

  /** A sample equal to the threshold counts as outside: its bit is 0. */
  lemma EqualSampleIsOutside(samples: seq<real>, threshold: real, k: nat)
    requires |samples| == 4 && k < 4
    requires samples[k] == threshold
    ensures !BitSet(CaseIndex(samples, threshold), k)
  {
  }

  /** Every corner at or below the threshold: the blank glyph. */
  lemma AllBelowIsBlank(samples: seq<real>, threshold: real, unicode: bool)
    requires |samples| == 4
    requires forall k :: 0 <= k < 4 ==> samples[k] <= threshold
    ensures CaseIndex(samples, threshold) == 0
    ensures March(samples, threshold, unicode) == "   "
  {
    PackIsWeightedIndex(samples, threshold);
  }

  /** Every corner above the threshold: the solid block. */
  lemma AllAboveIsSolid(samples: seq<real>, threshold: real, unicode: bool)
    requires |samples| == 4
    requires forall k :: 0 <= k < 4 ==> samples[k] > threshold
    ensures CaseIndex(samples, threshold) == 15
    ensures March(samples, threshold, unicode) == if unicode then "███" else "###"
  {
    PackIsWeightedIndex(samples, threshold);
  }

  /**
   * Raising one corner from at-or-below the threshold to above it, the
   * other three fixed, adds exactly that corner's weight to the index.
   */
  lemma RaiseOneCorner(samples: seq<real>, threshold: real, k: nat, v: real)
    requires |samples| == 4 && k < 4
    requires samples[k] <= threshold < v
    ensures CaseIndex(samples[k := v], threshold) == CaseIndex(samples, threshold) + Weight(k)
  {
    PackIsWeightedIndex(samples, threshold);
    PackIsWeightedIndex(samples[k := v], threshold);
  }

  /**
   * The index is determined by, and determines, which corners lie above the
   * threshold.
   */
  lemma SameIndexIffSamePattern(s: seq<real>, s': seq<real>, threshold: real)
    requires |s| == 4 && |s'| == 4
    ensures CaseIndex(s, threshold) == CaseIndex(s', threshold)
            <==> forall k :: 0 <= k < 4 ==> (s[k] > threshold <==> s'[k] > threshold)
  {
    PackIsWeightedIndex(s, threshold);
    PackIsWeightedIndex(s', threshold);
  }

  /**
   * Raising samples never clears a bit: if every corner of `s'` is at least
   * the matching corner of `s`, each bit set for `s` is set for `s'` and the
   * index does not decrease.
   */
  lemma IndexMonotone(s: seq<real>, s': seq<real>, threshold: real)
    requires |s| == 4 && |s'| == 4
    requires forall k :: 0 <= k < 4 ==> s[k] <= s'[k]
    ensures forall k :: 0 <= k < 4 ==> BitSet(CaseIndex(s, threshold), k) ==> BitSet(CaseIndex(s', threshold), k)
    ensures CaseIndex(s, threshold) <= CaseIndex(s', threshold)
  {
    PackIsWeightedIndex(s, threshold);
    PackIsWeightedIndex(s', threshold);
  }

  /**
   * Neighbouring cells of a grid with spacing `width` share their common
   * corners: the cell to the right starts at this cell's right edge, and the
   * cell below at its bottom edge.
   */
  lemma NeighboursShareCorners(x: real, y: real, width: real)
    ensures Corners(x + width, y, width)[0] == Corners(x, y, width)[1]
    ensures Corners(x + width, y, width)[3] == Corners(x, y, width)[2]
    ensures Corners(x, y + width, width)[0] == Corners(x, y, width)[3]
    ensures Corners(x, y + width, width)[1] == Corners(x, y, width)[2]
  {
  }
}
