# Marching-squares terrain viewer — Dafny model

This project models the core of a terminal terrain viewer written in Rust.
The viewer composes procedural noise generators into one scalar field. It
samples that field at the four corners of every screen cell and classifies
each cell with marching squares: every corner strictly above a threshold sets
one bit of a 4-bit index, and the index selects a three-character glyph from
an ASCII or a Unicode table. Keys pan the view, zoom it by changing the cell
size `step`, move the threshold, switch glyph sets and quit.

Files:

- `noisefield.dfy`, module `NoiseFields` (src/noisefield.rs). `NoiseField`
  is a class with a `seed` and the ordered list `noise` of its modules.
  `AddNoise` pushes a module. `Sample` runs the accumulator loop. `Reset` and
  `Add` are the state effects of the script calls `Noise.reset` and
  `Noise.add`. A module is any total function from a point to a `real`.
  `make_noise_module` is a caller-supplied `ModuleFactory`, a function of the
  noise type and the seed. The specification function `Sum` is the left fold
  that `sample` computes. `SumRight` is an independent right-fold reference.
- `marching.dfy`, module `Marching` (src/main.rs). It holds the tables
  `CASES` and `UNICODE_CASES`, `Corners` and `CaseIndex`. `CaseIndex` is the
  shift-and-or packing done on 8-bit vectors, with Rust's operator
  precedence made explicit. `WeightedIndex` is the arithmetic reference for
  it. `March` does the table lookup.
- `viewer.dfy`, module `Viewer` (src/main.rs, `main`). `Viewport` is a class
  holding the six local variables that `main` mutates. `HandleKey` is the
  key `match`, and the pure `OnKey` specifies it. `Run` folds `OnEvent` over a
  sequence of events. Unlike the `while running` loop, it keeps handling
  events after a quit; `QuitIsFinal` shows they cannot restart the loop, and
  `StepFloor` and `KeepsRunning` hold over such sequences too. `DrawFrame` is one pass of the nested grid loop, with
  the incremental `x += step`, the per-row reset of `x` and `y += step`. Its
  inner loop is `DrawRow`, and the body of that loop is `DrawCell`.
  `DrawFrame` returns the grid of glyphs the frame prints. `Printed` gives
  the characters of one screen row, with glyph `ox` at columns `3*ox` to
  `3*ox+2`.

The corner order is top-left, top-right, bottom-right, bottom-left, with the
screen's y axis pointing down. This is the order `corners` uses. The first
corner gives the most significant bit of the index.

Points where the code behaves differently from what one might expect of such a viewer:

- Zoom-in has no fixed floor at 0.01. `+` subtracts 0.001 whenever
  `step > 0.01`, so `step` can reach values just above 0.009. `StepFloor`
  proves the bound the code actually keeps: `step >= min(initial step,
  0.009)`, so a positive step stays positive.
- The drawn grid is not centred on the pan point. The walk starts
  `cols*step/2` left of `startx` (and `rows*step/2` above `starty`) at a
  cell centre, and each cell is the square of side `step` around its centre,
  so the drawn area is centred half a cell up and to the left of the pan
  point. `GridIsOffsetHalfCell` proves where it lies.
- There is no parameter validation, no error type and no biome colour pass.
  `Add` appends whatever module the factory builds.
- "Three characters wide" means three Unicode scalar values. In UTF-8 bytes
  the Unicode glyphs are longer. The terminal prints one column per
  character.

## Model

| member | source | states |
|---|---|---|
| `NoiseFields.NoiseField.constructor` | src/noisefield.rs:26-31 | a new field has the given seed and no module |
| `NoiseFields.NoiseField.Init` | src/noisefield.rs:11-15 | the initial field has seed 1 and exactly one module, the Perlin module seeded with 1 |
| `NoiseFields.NoiseField.AddNoise` | src/noisefield.rs:33-35 | appends exactly one module at the end, keeps earlier modules in order, leaves the seed unchanged, and afterwards every sample equals the old sample plus the new module's value |
| `NoiseFields.NoiseField.Sample` | src/noisefield.rs:37-43 | the loop returns the left fold of every module's value from 0.0 in insertion order, 0.0 for an empty field, and changes nothing |
| `NoiseFields.NoiseField.Reset` | src/noisefield.rs:46-48 | the field becomes empty with the script's seed, so every sample is 0.0 |
| `NoiseFields.NoiseField.Add` | src/noisefield.rs:50-55 | appends the module the factory builds from the noise type and the field's current seed, and leaves the seed unchanged |
| `NoiseFields.NoiseField.SampleAt` | src/noisefield.rs:57-59 | the field's value at the integer point converted to the plane |
| `NoiseFields.EmptyFieldIsFlat` | src/noisefield.rs:37-43 | a field with no module samples to 0.0 at every point |
| `NoiseFields.SumAppend` | src/noisefield.rs:33-43 | the sample after appending a module is the previous sample plus that module's value |
| `NoiseFields.SumConcat` | src/noisefield.rs:37-43 | the sample of two concatenated module lists is the sum of their samples |
| `NoiseFields.LeftFoldIsRightFold` | src/noisefield.rs:37-43 | the accumulator's left fold equals the independent right-fold sum of the module values |
| `NoiseFields.SumSwap` | src/noisefield.rs:37-43 | in exact arithmetic, the sample does not depend on which of two groups of modules is inserted first (with `f32` rounding it does) |
| `Marching.Table` | src/main.rs:16-52 | each table has 16 entries of exactly 3 characters, entry 0 is blank and entry 15 is `###` or `███` |
| `Marching.Corners` | src/main.rs:54-57 | four points forming the square of side `width` centred on (x, y), listed top-left, top-right, bottom-right, bottom-left |
| `Marching.NeighboursShareCorners` | src/main.rs:54-57 | cells one `width` apart horizontally or vertically share their two common corner points |
| `Marching.PackIsWeightedIndex` | src/main.rs:60-61 | or-ing the shifted bits equals 8, 4, 2, 1 summed over the corners strictly above the threshold |
| `Marching.CaseIndex` | src/main.rs:60-61 | the index is below 16, and bit 3-k is set exactly when sample k is strictly above the threshold |
| `Marching.March` | src/main.rs:59-63 | the glyph is an entry of `UNICODE_CASES` when `unicode` holds and of `CASES` otherwise, and it is 3 characters wide |
| `Marching.EqualSampleIsOutside` | src/main.rs:60 | a sample equal to the threshold contributes a 0 bit |
| `Marching.AllBelowIsBlank` | src/main.rs:59-62 | all corners at or below the threshold give index 0 and the blank glyph |
| `Marching.AllAboveIsSolid` | src/main.rs:59-62 | all corners above the threshold give index 15 and `###` or `███` |
| `Marching.RaiseOneCorner` | src/main.rs:60-61 | raising one corner from at-or-below to above the threshold adds exactly that corner's weight 8, 4, 2 or 1 |
| `Marching.SameIndexIffSamePattern` | src/main.rs:60-61 | two sample sets give the same index if and only if the same corners are above the threshold |
| `Marching.IndexMonotone` | src/main.rs:60-61 | raising samples never clears a bit, so the index does not decrease |
| `Viewer.OnKey` | src/main.rs:108-124 | only q/Esc clear `running` and only `u` flips `unicode`; w/Up and a/Left move the pan point one step towards smaller y and x, s/Down and d/Right one step towards larger, and no other key moves it; `[` lowers and `]` raises the threshold by 0.01, and no other key moves it; `-` adds 0.001 to `step`, `+` subtracts 0.001 when `step > 0.01` and otherwise leaves it, no other key changes it, and a zoom-in leaves `step` above 0.009 |
| `Viewer.StepFloor` | src/main.rs:114-115 | after any sequence of events `step` is at least min(initial step, 0.009), so a positive step stays positive |
| `Viewer.QuitIsFinal` | src/main.rs:121 | once `running` is false no event makes it true again |
| `Viewer.KeepsRunning` | src/main.rs:107-124 | events that are not q or Esc presses never stop the loop |
| `Viewer.OppositeKeysCancel` | src/main.rs:109-119 | w then s, Up then Down, a then d, Left then Right, `[` then `]`, and `u` twice restore the viewport |
| `Viewer.ZoomOutThenIn` | src/main.rs:114-115 | `-` then `+` restores `step` whenever `step > 0.009` |
| `Viewer.Viewport.constructor` | src/main.rs:77-81 | the loop starts running, with ASCII glyphs, step 0.1, threshold 0.4, and the pan point at the origin |
| `Viewer.Viewport.HandleKey` | src/main.rs:107-124 | the key `match` updates the viewport exactly as `OnKey` does, and a positive step stays positive |
| `Viewer.Viewport.HandleEvent` | src/main.rs:107 | only a key event changes the viewport |
| `Viewer.CellGlyph` | src/main.rs:90-98 | the glyph that a cell gets from the field's samples at its four corners is 3 characters wide |
| `Viewer.GridIsOffsetHalfCell` | src/main.rs:85-90 | the drawn cells span from the left edge of the first column to the right edge of the last symmetrically about `startx - step/2`, and from the top of the first row to the bottom of the last about `starty - step/2`: the grid sits half a cell up and left of the pan point |
| `Viewer.NextColumn` | src/main.rs:99 | `x += step` moves the centre from column `ox` to column `ox + 1` |
| `Viewer.NextRow` | src/main.rs:101 | `y += step` moves the centre from row `oy` to row `oy + 1` |
| `Viewer.ColumnOffset` | src/main.rs:85-102 | starting each row at the reset `x`, column `ox` is reached after `ox` steps at `startx - cols*step/2 + ox*step` |
| `Viewer.PrintedLayout` | src/main.rs:96-98 | with 3-character glyphs, glyph `ox` occupies exactly columns 3*ox to 3*ox+2 of the printed row |
| `Viewer.PrintedLength` | src/main.rs:96-98 | a printed row of `n` 3-character glyphs is `3*n` characters long |
| `Viewer.DrawCell` | src/main.rs:90-98 | the cell's glyph is `march` of the field's samples at the four corners of the cell centred on (x, y) |
| `Viewer.DrawRow` | src/main.rs:89-100 | the inner loop yields one glyph per column, and glyph `ox` is that of the cell centred `ox` steps right of the row start |
| `Viewer.DrawFrame` | src/main.rs:84-103 | a frame has `height` rows of `width/3` cells, which fit in `width` columns, and cell (ox, oy) shows `march` of the field at the corners of the cell centred at `startx - cols*step/2 + ox*step`, `starty - rows*step/2 + oy*step` |

## Left out

- Terminal I/O (`RustBox::init`, `print`, `present`, `poll_event`, `height`, `width`): the terminal size and the polled event are inputs. The glyphs a frame prints are a return value, and `Printed` stands for the screen row that `print` fills. The white-on-black colours are not modelled.
- The unbounded `while running` loop: the model covers one frame (`DrawFrame`) and one event (`HandleEvent`), and `Run` covers a finite sequence of events.
- The noise generators (`Perlin`, `Fbm`, `Worley` and the `noise` crate's builders): they are external code, so a module is an arbitrary function and `make_noise_module` is a caller-supplied function of type and seed.
- The field set up in `main` at src/main.rs:72-75: it uses a different `NoiseField` API from the one in src/noisefield.rs, so the model keeps the noisefield.rs API only.
- Lua interop (`add_lua_interop`, the push/read macros, `LuaRead`, the `lua_noisetype_*` constructors): this is foreign-binding glue.
- The thread-local `NOISE` and its `RefCell` borrows: the field is an explicit object, and reset and add are methods on it.
- Floating point: `f32` is modelled by `real`, so rounding, NaN and infinities are not modelled. The `u32`→`usize` cast in `lua_noise_reset` is exact.
- SampleAt: models the `i32`→`f32` cast in `lua_noise_sample` as exact; in the source it rounds for |x| > 2^24 (16777217 becomes 16777216.0).
- Non-key events, key events without a key (`Event::KeyEvent(None)`) and failed polls are one `OtherEvent`, and every non-character key the handler does not name is one `OtherKey`; character keys it does not name stay `Char(c)` and change nothing.
