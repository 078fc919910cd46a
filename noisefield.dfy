/**
 * The additive noise field of src/noisefield.rs.
 *
 * A noise module of the external `noise` crate is opaque here: it is any total
 * function from a point to a value, and `f32` is modelled by `real`. The
 * constructor that turns a noise type and a seed into a module
 * (`NoiseType::make_noise_module`) is likewise a parameter of the operations
 * that use it, so every property below holds whatever the generators compute.
 */
module NoiseFields {

  /** A point of the plane (`Point2<f32>`, i.e. `[f32; 2]`). */
  datatype Point = Point(x: real, y: real)

  /** A realized noise generator (`Box<NoiseModule<Point2<f32>, Output=f32>>`). */
  type NoiseModule = Point -> real

  /** The noise types a script may ask for (`enum NoiseType`). */
  datatype NoiseType =
    | Perlin
    | Brownian(octaves: nat, frequency: real, lacunarity: real, persistence: real)
    | Worley(frequency: real, displacement: real)

  /**
   * `NoiseType::make_noise_module`: builds the generator of a noise type,
   * seeded with the given seed. Its behaviour lives in the external crate, so
   * it is supplied by the caller; being a function, it yields the same module
   * for the same type and seed.
   */
  type ModuleFactory = (NoiseType, nat) -> NoiseModule

  /** The `u32` seed a script passes to `Noise.reset`. */
  newtype u32 = x: int | 0 <= x < 0x1_0000_0000

  /** The `i32` coordinates a script passes to `Noise.sample`. */
  newtype i32 = x: int | -0x8000_0000 <= x < 0x8000_0000

  /**
   * The value of a list of modules at `pt`: the left fold with `+` from 0.0,
   * in list order, which is what `NoiseField::sample` computes.
   */
  function Sum(ms: seq<NoiseModule>, pt: Point): real
  {
    if ms == [] then 0.0 else Sum(ms[..|ms| - 1], pt) + ms[|ms| - 1](pt)
  }

  /**
   * An independent reference: the right fold of the module values. For
   * exact arithmetic the two agree (lemma LeftFoldIsRightFold).
   */
  function SumRight(ms: seq<NoiseModule>, pt: Point): real
  {
    if ms == [] then 0.0 else ms[0](pt) + SumRight(ms[1..], pt)
  }

  /** A field with no module is flat: it is 0.0 everywhere. */
  lemma EmptyFieldIsFlat(ms: seq<NoiseModule>, pt: Point)
    requires ms == []
    ensures Sum(ms, pt) == 0.0
  {
  }

  /** Appending a module adds that module's value to the sample. */
  lemma SumAppend(ms: seq<NoiseModule>, m: NoiseModule, pt: Point)
    ensures Sum(ms + [m], pt) == Sum(ms, pt) + m(pt)
  {
    assert (ms + [m])[..|ms + [m]| - 1] == ms;
  }

  /** The sample of a concatenation is the sum of the samples of its parts. */
  lemma {:induction false} SumConcat(a: seq<NoiseModule>, b: seq<NoiseModule>, pt: Point)
    ensures Sum(a + b, pt) == Sum(a, pt) + Sum(b, pt)
  {
    if b == [] {
      assert a + b == a;
    } else {
      var init, last := b[..|b| - 1], b[|b| - 1];
      assert b == init + [last];
      assert a + b == (a + init) + [last];
      SumConcat(a, init, pt);
      SumAppend(a + init, last, pt);
      SumAppend(init, last, pt);
    }
  }

  /** The left fold agrees with the right fold of the same modules. */
  lemma {:induction false} LeftFoldIsRightFold(ms: seq<NoiseModule>, pt: Point)
    ensures Sum(ms, pt) == SumRight(ms, pt)
  {
    if ms != [] {
      assert ms == [ms[0]] + ms[1..];
      LeftFoldIsRightFold(ms[1..], pt);
      SumConcat([ms[0]], ms[1..], pt);
      SumAppend([], ms[0], pt);
    }
  }

  /**
   * In exact arithmetic composition order does not change the value: two
   * groups of modules give the same sample whichever is inserted first. (With
   * `f32` additions the rounding depends on insertion order.)
   */
  lemma SumSwap(a: seq<NoiseModule>, b: seq<NoiseModule>, pt: Point)
    ensures Sum(a + b, pt) == Sum(b + a, pt)
  {
    SumConcat(a, b, pt);
    SumConcat(b, a, pt);
  }

  /** `NoiseField`: a seed and the ordered list of its modules. */
  class NoiseField {
    var seed: nat
    var noise: seq<NoiseModule>

    /** `NoiseField::new`: the given seed and no module. */
    constructor (seed: nat)
      ensures this.seed == seed && noise == []
    {
      this.seed := seed;
      noise := [];
    }

    /**
     * `init`: the field the program starts with, seed 1 and one Perlin
     * module seeded with 1.
     */
    static method Init(make: ModuleFactory) returns (nf: NoiseField)
      ensures fresh(nf)
      ensures nf.seed == 1 && nf.noise == [make(Perlin, 1)]
    {
      nf := new NoiseField(1);
      nf.AddNoise(make(Perlin, 1));
    }

    /**
     * `add_noise`: pushes one module at the end; earlier modules and the
     * seed are untouched, and every sample grows by the module's value.
     */
    method AddNoise(m: NoiseModule)
      modifies this
      ensures noise == old(noise) + [m] && seed == old(seed)
      ensures forall pt :: Sum(noise, pt) == Sum(old(noise), pt) + m(pt)
    {
      noise := noise + [m];
      forall pt ensures Sum(noise, pt) == Sum(old(noise), pt) + m(pt) {
        SumAppend(old(noise), m, pt);
      }
    }

    /**
     * `sample`: the sum of every module's value at `pt`, accumulated from
     * 0.0 in insertion order. It only reads the field.
     */
    method Sample(pt: Point) returns (res: real)
      ensures res == Sum(noise, pt)
      ensures noise == [] ==> res == 0.0
    {
      res := 0.0;
      var i := 0;
      while i < |noise|
        invariant 0 <= i <= |noise|
        invariant res == Sum(noise[..i], pt)
      {
        assert noise[..i + 1] == noise[..i] + [noise[i]];
        SumAppend(noise[..i], noise[i], pt);
        res := res + noise[i](pt);
        i := i + 1;
      }
      assert noise[..i] == noise;
    }

    /**
     * `lua_noise_reset`: the field is replaced by a new empty one carrying
     * the script's seed; every earlier module is discarded.
     */
    method Reset(seed: u32)
      modifies this
      ensures this.seed == seed as nat && noise == []
      ensures forall pt :: Sum(noise, pt) == 0.0
    {
      this.seed := seed as nat;
      noise := [];
    }

    /**
     * `lua_noise_add`: the module of type `t` is built from the field's
     * current seed and appended; the seed itself is unchanged.
     */
    method Add(t: NoiseType, make: ModuleFactory)
      modifies this
      ensures noise == old(noise) + [make(t, old(seed))] && seed == old(seed)
    {
      var m := make(t, seed);
      AddNoise(m);
    }

    /**
     * `lua_noise_sample`: the field's value at the integer point (x, y),
     * converted to a point of the plane.
     */
    method SampleAt(x: i32, y: i32) returns (res: real)
      ensures res == Sum(noise, Point(x as real, y as real))
    {
      res := Sample(Point(x as real, y as real));
    }
  }
}
