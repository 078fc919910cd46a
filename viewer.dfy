/**
 * The frame loop of `main` in src/main.rs: the viewport state it keeps in
 * local variables, the grid walk that samples the field at every cell's
 * corners, and the key handler that pans, zooms, moves the threshold,
 * switches the glyph set or stops the loop.
 *
 * The terminal is not modelled: its size and the polled event are inputs,
 * and the rows a frame prints are returned as strings.
 */
module Viewer {
  import opened NoiseFields
  import opened Marching

  /**
   * The keys the handler tells apart: a character key keeps its character,
   * and `OtherKey` is every other non-character key.
   */
  datatype Key = Char(c: char) | Up | Down | Left | Right | Esc | OtherKey

  /** What `poll_event` returned: a key press, or anything else. */
  datatype Event = KeyEvent(key: Key) | OtherEvent

  /** The viewport: pan offset, cell size, threshold, glyph set, running flag. */
  datatype ViewState = ViewState(startx: real, starty: real, step: real, threshold: real,
                                 unicode: bool, running: bool)

  /** `q` and Esc stop the loop. */
  predicate IsQuit(k: Key)
  {
    k == Esc || k == Char('q')
  }

  /** The keys that pan horizontally or vertically. */
  predicate PansX(k: Key)
  {
    k == Char('a') || k == Left || k == Char('d') || k == Right
  }

  predicate PansY(k: Key)
  {
    k == Char('w') || k == Up || k == Char('s') || k == Down
  }

  /**
   * The effect of one key press on the viewport. Each key touches one field
   * only, a zoom-in never takes `step` below 0.009, and quitting is the only
   * way `running` changes.
   */
  function OnKey(s: ViewState, k: Key): (r: ViewState)
    ensures r.running == (s.running && !IsQuit(k))
    ensures r.unicode == (s.unicode != (k == Char('u')))
    // only a pan key moves the pan point, and then by one step
    ensures r.startx != s.startx ==> PansX(k) && (r.startx == s.startx - s.step || r.startx == s.startx + s.step)
    ensures r.starty != s.starty ==> PansY(k) && (r.starty == s.starty - s.step || r.starty == s.starty + s.step)
    // up and left pan towards smaller coordinates, down and right towards larger
    ensures k == Char('w') || k == Up ==> r.starty == s.starty - s.step
    ensures k == Char('s') || k == Down ==> r.starty == s.starty + s.step
    ensures k == Char('a') || k == Left ==> r.startx == s.startx - s.step
    ensures k == Char('d') || k == Right ==> r.startx == s.startx + s.step
    // only `[` and `]` move the threshold, by a hundredth down or up
    ensures r.threshold != s.threshold ==> k in {Char('['), Char(']')}
    ensures k == Char('[') ==> r.threshold == s.threshold - 0.01
    ensures k == Char(']') ==> r.threshold == s.threshold + 0.01
    // only `-` and `+` change the cell size: `-` zooms out by a thousandth,
    // `+` zooms in by a thousandth while the step exceeds 0.01
    ensures r.step != s.step ==> k in {Char('+'), Char('-')}
    ensures k == Char('-') ==> r.step == s.step + 0.001
    ensures k == Char('+') ==> r.step == if s.step > 0.01 then s.step - 0.001 else s.step
    ensures r.step < s.step ==> s.step > 0.01 && r.step > 0.009
  {
    match k
    case Char('w') | Up => s.(starty := s.starty - s.step)
    case Char('s') | Down => s.(starty := s.starty + s.step)
    case Char('a') | Left => s.(startx := s.startx - s.step)
    case Char('d') | Right => s.(startx := s.startx + s.step)
    case Char('+') => if s.step > 0.01 then s.(step := s.step - 0.001) else s
    case Char('-') => s.(step := s.step + 0.001)
    case Char('[') => s.(threshold := s.threshold - 0.01)
    case Char(']') => s.(threshold := s.threshold + 0.01)
    case Char('u') => s.(unicode := !s.unicode)
    case Esc | Char('q') => s.(running := false)
    case _ => s
  }

  /** The effect of one polled event: only a key press does anything. */
  function OnEvent(s: ViewState, e: Event): ViewState
  {
    match e
    case KeyEvent(k) => OnKey(s, k)
    case OtherEvent => s
  }

  /**
   * The viewport after a sequence of events, handled in order. It keeps
   * handling events after a quit, which the `while running` loop never
   * polls; QuitIsFinal shows those events cannot restart it.
   */
  function Run(s: ViewState, es: seq<Event>): ViewState
    decreases |es|
  {
    if es == [] then s else Run(OnEvent(s, es[0]), es[1..])
  }

  /** The smaller of two reals. */
  function Min(a: real, b: real): real
  {
    if a <= b then a else b
  }

  /**
   * However many events arrive, `step` never falls below the smaller of its
   * starting value and 0.009; so a positive step stays positive.
   */
  lemma {:induction false} StepFloor(s: ViewState, es: seq<Event>)
    ensures Run(s, es).step >= Min(s.step, 0.009)
    ensures s.step > 0.0 ==> Run(s, es).step > 0.0
    decreases |es|
  {
    if es != [] {
      var s' := OnEvent(s, es[0]);
      StepFloor(s', es[1..]);
      assert Min(s'.step, 0.009) >= Min(s.step, 0.009);
    }
  }

  /** Once `running` is cleared no event sets it again. */
  lemma {:induction false} QuitIsFinal(s: ViewState, es: seq<Event>)
    requires !s.running
    ensures !Run(s, es).running
    decreases |es|
  {
    if es != [] {
      QuitIsFinal(OnEvent(s, es[0]), es[1..]);
    }
  }

  /** Events that are not quit keys keep the loop running. */
  lemma {:induction false} KeepsRunning(s: ViewState, es: seq<Event>)
    requires s.running
    requires forall i :: 0 <= i < |es| ==> !(es[i].KeyEvent? && IsQuit(es[i].key))
    ensures Run(s, es).running
    decreases |es|
  {
    if es != [] {
      KeepsRunning(OnEvent(s, es[0]), es[1..]);
    }
  }

  /** Opposite pans, opposite threshold moves and a double toggle undo each other. */
  lemma OppositeKeysCancel(s: ViewState)
    ensures OnKey(OnKey(s, Char('w')), Char('s')) == s
    ensures OnKey(OnKey(s, Up), Down) == s
    ensures OnKey(OnKey(s, Char('a')), Char('d')) == s
    ensures OnKey(OnKey(s, Left), Right) == s
    ensures OnKey(OnKey(s, Char('[')), Char(']')) == s
    ensures OnKey(OnKey(s, Char('u')), Char('u')) == s
  {
  }

  /** A zoom-out is undone by a zoom-in, which the floor then allows. */
  lemma ZoomOutThenIn(s: ViewState)
    requires s.step > 0.009
    ensures OnKey(OnKey(s, Char('-')), Char('+')) == s
  {
  }

  /**
   * The viewport state `main` keeps in its local variables `startx`,
   * `starty`, `step`, `threshold`, `unicode` and `running`.
   */
  class Viewport {
    var startx: real
    var starty: real
    var step: real
    var threshold: real
    var unicode: bool
    var running: bool

    ghost function State(): ViewState
      reads this
    {
      ViewState(startx, starty, step, threshold, unicode, running)
    }

    /** The values `main` starts with. */
    constructor ()
      ensures State() == ViewState(0.0, 0.0, 0.1, 0.4, false, true)
    {
      running := true;
      unicode := false;
      step := 0.1;
      threshold := 0.4;
      startx, starty := 0.0, 0.0;
    }

    /** The `match key` of `main`: updates the fields as OnKey says. */
    method HandleKey(k: Key)
      modifies this
      ensures State() == OnKey(old(State()), k)
      ensures old(step) > 0.0 ==> step > 0.0
    {
      match k {
        case Char('w') | Up => starty := starty - step;
        case Char('s') | Down => starty := starty + step;
        case Char('a') | Left => startx := startx - step;
        case Char('d') | Right => startx := startx + step;
        case Char('+') => if step > 0.01 { step := step - 0.001; }
        case Char('-') => step := step + 0.001;
        case Char('[') => threshold := threshold - 0.01;
        case Char(']') => threshold := threshold + 0.01;
        case Char('u') => unicode := !unicode;
        case Esc | Char('q') => running := false;
        case _ =>
      }
    }

    /** `if let Ok(Event::KeyEvent(Some(key))) = rb.poll_event(false)`. */
    method HandleEvent(e: Event)
      modifies this
      ensures State() == OnEvent(old(State()), e)
    {
      if e.KeyEvent? {
        HandleKey(e.key);
      }
    }
  }

  /** The x coordinate of the centre of column `ox` of a grid of `cols` columns. */
  function CellX(startx: real, step: real, cols: nat, ox: nat): real
  {
    startx - (cols as real) * step / 2.0 + (ox as real) * step
  }

  /** The y coordinate of the centre of row `oy` of a grid of `rows` rows. */
  function CellY(starty: real, step: real, rows: nat, oy: nat): real
  {
    starty - (rows as real) * step / 2.0 + (oy as real) * step
  }

  /**
   * The drawn grid is not centred on the pan point but half a cell up and to
   * the left of it: the grid starts `cols*step/2` left of `startx` at a cell
   * centre, so the left edge of the first cell and the right edge of the
   * last lie symmetrically about `startx - step/2`, and likewise the top edge
   * of the first row and the bottom edge of the last about `starty - step/2`.
   */
  lemma GridIsOffsetHalfCell(startx: real, starty: real, step: real, rows: nat, cols: nat, x: real, y: real)
    requires rows >= 1 && cols >= 1
    ensures Corners(CellX(startx, step, cols, 0), y, step)[0].x
            + Corners(CellX(startx, step, cols, cols - 1), y, step)[1].x == 2.0 * startx - step
    ensures Corners(x, CellY(starty, step, rows, 0), step)[0].y
            + Corners(x, CellY(starty, step, rows, rows - 1), step)[3].y == 2.0 * starty - step
  {
    assert (cols as real) * step / 2.0 * 2.0 == (cols as real) * step;
    assert (rows as real) * step / 2.0 * 2.0 == (rows as real) * step;
    assert ((cols - 1) as real) * step == (cols as real) * step - step;
    assert ((rows - 1) as real) * step == (rows as real) * step - step;
  }

  /** The glyph of the cell centred on (x, y): `march` of the field at its corners. */
  function GlyphAt(noise: seq<NoiseModule>, x: real, y: real, step: real, threshold: real, unicode: bool): (g: Cell)
    ensures |g| == 3
  {
    var pts := Corners(x, y, step);
    March([Sum(noise, pts[0]), Sum(noise, pts[1]), Sum(noise, pts[2]), Sum(noise, pts[3])],
          threshold, unicode)
  }

  /** The glyph of cell (ox, oy) of a `rows` by `cols` grid over the viewport `v`. */
  function CellGlyph(noise: seq<NoiseModule>, v: ViewState, rows: nat, cols: nat, ox: nat, oy: nat): (g: Cell)
    ensures |g| == 3
  {
    GlyphAt(noise, CellX(v.startx, v.step, cols, ox), CellY(v.starty, v.step, rows, oy), v.step,
            v.threshold, v.unicode)
  }

  /**
   * The characters of one screen row: the glyphs printed left to right, glyph
   * `ox` at column `ox * 3`.
   */
  function Printed(cells: seq<Cell>): string
  {
    if cells == [] then [] else Printed(cells[..|cells| - 1]) + cells[|cells| - 1]
  }

  /**
   * Since every glyph is three characters wide, glyph `ox` occupies exactly
   * columns 3*ox .. 3*ox+2 of the printed row: the glyphs neither overlap nor
   * leave gaps (the row's total length is PrintedLength).
   */
  lemma {:induction false} PrintedLayout(cells: seq<Cell>, ox: nat)
    requires forall i :: 0 <= i < |cells| ==> |cells[i]| == 3
    requires ox < |cells|
    ensures 3 * ox + 3 <= |Printed(cells)| && Printed(cells)[3 * ox .. 3 * ox + 3] == cells[ox]
  {
    var init, last := cells[..|cells| - 1], cells[|cells| - 1];
    PrintedLength(cells);
    PrintedLength(init);
    assert Printed(cells) == Printed(init) + last;
    if ox < |init| {
      PrintedLayout(init, ox);
      assert Printed(cells)[..3 * |init|] == Printed(init);
    }
  }

  /** A printed row of `n` three-character glyphs is `3*n` characters long. */
  lemma {:induction false} PrintedLength(cells: seq<Cell>)
    requires forall i :: 0 <= i < |cells| ==> |cells[i]| == 3
    ensures |Printed(cells)| == 3 * |cells|
  {
    if cells != [] {
      PrintedLength(cells[..|cells| - 1]);
    }
  }

  /** The body of the inner loop: sample the four corners of one cell and march. */
  method DrawCell(field: NoiseField, x: real, y: real, step: real, threshold: real, unicode: bool)
    returns (glyph: Cell)
    ensures glyph == GlyphAt(field.noise, x, y, step, threshold, unicode)
  {
    var points := Corners(x, y, step);
    var s0 := field.Sample(points[0]);
    var s1 := field.Sample(points[1]);
    var s2 := field.Sample(points[2]);
    var s3 := field.Sample(points[3]);
    glyph := March([s0, s1, s2, s3], threshold, unicode);
  }

  /** The centre `ox` steps to the right of `x0`. */
  function Column(x0: real, step: real, ox: nat): real
  {
    x0 + (ox as real) * step
  }

  /** Moving `step` to the right from column `ox` reaches column `ox + 1`. */
  lemma NextColumn(x0: real, step: real, ox: nat)
    ensures Column(x0, step, ox) + step == Column(x0, step, ox + 1)
  {
  }

  /** Appending the glyph of column `ox` extends the glyphs of columns 0 .. ox-1. */
  lemma AppendCell(noise: seq<NoiseModule>, x0: real, y: real, step: real, threshold: real, unicode: bool,
                   ox: nat, cells: seq<Cell>, glyph: Cell)
    requires |cells| == ox
    requires forall i :: 0 <= i < ox ==> cells[i] == GlyphAt(noise, Column(x0, step, i), y, step, threshold, unicode)
    requires glyph == GlyphAt(noise, Column(x0, step, ox), y, step, threshold, unicode)
    ensures forall i :: 0 <= i < ox + 1 ==>
              (cells + [glyph])[i] == GlyphAt(noise, Column(x0, step, i), y, step, threshold, unicode)
  {
  }

  /**
   * The inner loop of the grid walk for one row at height `y`: starting at
   * the row's first centre `x0`, it prints the glyph of each cell in turn
   * (`rb.print(ox * 3, oy, ...)`), then `x += step`.
   */
  method DrawRow(field: NoiseField, x0: real, y: real, step: real, threshold: real, unicode: bool, cols: nat)
    returns (cells: seq<Cell>)
    ensures |cells| == cols
    ensures forall ox :: 0 <= ox < cols ==>
              cells[ox] == GlyphAt(field.noise, Column(x0, step, ox), y, step, threshold, unicode)
  {
    var x := x0;
    cells := [];
    var ox := 0;
    while ox < cols
      invariant 0 <= ox <= cols
      invariant x == Column(x0, step, ox)
      invariant |cells| == ox
      invariant forall i :: 0 <= i < ox ==>
                  cells[i] == GlyphAt(field.noise, Column(x0, step, i), y, step, threshold, unicode)
    {
      var glyph := DrawCell(field, x, y, step, threshold, unicode);
      AppendCell(field.noise, x0, y, step, threshold, unicode, ox, cells, glyph);
      cells := cells + [glyph];
      NextColumn(x0, step, ox);
      x := x + step;
      ox := ox + 1;
    }
  }

  /** Column `ox` lies `ox` steps right of column 0. */
  lemma ColumnOffset(startx: real, step: real, cols: nat, ox: nat)
    ensures Column(CellX(startx, step, cols, 0), step, ox) == CellX(startx, step, cols, ox)
  {
  }

  /** Moving `step` down from row `oy` reaches row `oy + 1`. */
  lemma NextRow(starty: real, step: real, rows: nat, oy: nat)
    ensures CellY(starty, step, rows, oy) + step == CellY(starty, step, rows, oy + 1)
  {
  }

  /**
   * The row the inner loop draws at height CellY(oy), starting from
   * CellX(0), holds the glyphs of cells (0, oy) .. (cols-1, oy).
   */
  lemma RowOfGrid(noise: seq<NoiseModule>, v: ViewState, rows: nat, cols: nat, oy: nat,
                  x: real, y: real, cells: seq<Cell>)
    requires x == CellX(v.startx, v.step, cols, 0) && y == CellY(v.starty, v.step, rows, oy)
    requires |cells| == cols
    requires forall ox :: 0 <= ox < cols ==>
               cells[ox] == GlyphAt(noise, Column(x, v.step, ox), y, v.step, v.threshold, v.unicode)
    ensures forall ox :: 0 <= ox < cols ==> cells[ox] == CellGlyph(noise, v, rows, cols, ox, oy)
  {
    forall ox | 0 <= ox < cols
      ensures cells[ox] == CellGlyph(noise, v, rows, cols, ox, oy)
    {
      ColumnOffset(v.startx, v.step, cols, ox);
    }
  }

  /** Appending the row drawn at CellY(oy) extends a grid of rows 0 .. oy-1 by row oy. */
  lemma AppendRow(noise: seq<NoiseModule>, v: ViewState, rows: nat, cols: nat, oy: nat,
                  grid: seq<seq<Cell>>, cells: seq<Cell>)
    requires |grid| == oy && |cells| == cols
    requires forall j :: 0 <= j < oy ==> |grid[j]| == cols
    requires forall j, i :: 0 <= j < oy && 0 <= i < cols ==> grid[j][i] == CellGlyph(noise, v, rows, cols, i, j)
    requires forall i :: 0 <= i < cols ==> cells[i] == CellGlyph(noise, v, rows, cols, i, oy)
    ensures forall j :: 0 <= j < oy + 1 ==> |(grid + [cells])[j]| == cols
    ensures forall j, i :: 0 <= j < oy + 1 && 0 <= i < cols ==>
              (grid + [cells])[j][i] == CellGlyph(noise, v, rows, cols, i, j)
  {
  }

  /**
   * One frame of `main`: the terminal holds `height` rows and `width / 3`
   * columns of three-character cells. The grid starts half a grid left of
   * and above the pan point; `y` grows by `step` per row and `x` by `step`
   * per cell, and `x` is reset to the row start after each row. Row oy of
   * the result is what is printed on screen row oy (see Printed): cell
   * (ox, oy) shows the glyph of the cell centred on (CellX(ox), CellY(oy)).
   */
  method DrawFrame(field: NoiseField, view: Viewport, height: nat, width: nat)
    returns (grid: seq<seq<Cell>>)
    ensures |grid| == height
    ensures forall oy :: 0 <= oy < height ==> |grid[oy]| == width / 3 && 3 * |grid[oy]| <= width
    ensures forall oy, ox :: 0 <= oy < height && 0 <= ox < width / 3 ==>
              grid[oy][ox] == CellGlyph(field.noise, view.State(), height, width / 3, ox, oy)
  {
    ghost var v := view.State();
    var rows, cols := height, width / 3;
    var step, threshold, unicode := view.step, view.threshold, view.unicode;
    var x, y := view.startx - (cols as real) * step / 2.0, view.starty - (rows as real) * step / 2.0;
    grid := [];
    var oy := 0;
    while oy < rows
      invariant 0 <= oy <= rows
      invariant x == CellX(v.startx, step, cols, 0)
      invariant y == CellY(v.starty, step, rows, oy)
      invariant |grid| == oy
      invariant forall j :: 0 <= j < oy ==> |grid[j]| == cols
      invariant forall j, i :: 0 <= j < oy && 0 <= i < cols ==> grid[j][i] == CellGlyph(field.noise, v, rows, cols, i, j)
    {
      var cells := DrawRow(field, x, y, step, threshold, unicode, cols);
      RowOfGrid(field.noise, v, rows, cols, oy, x, y, cells);
      AppendRow(field.noise, v, rows, cols, oy, grid, cells);
      grid := grid + [cells];
      NextRow(v.starty, step, rows, oy);
      y := y + step;
      x := view.startx - (cols as real) * step / 2.0;
      oy := oy + 1;
    }
  }
}
