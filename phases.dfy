/**
 * The generators of tree.py that keep a scalar phase (`LightFunc` and its
 * subclasses `FuncRainbow`, `FuncMoveingDots1`, `FuncMoveingDots2`,
 * `FuncMoveCombine`). Their brightness comes from `math.sin`, which is not
 * modelled: every `Sample` takes the sine value the source would compute
 * for that pixel as a parameter `sine` in [-1, 1]. Random draws at
 * construction are parameters too.
 */
module Phases {
  import opened Colors
  import opened Palette
  import opened Bits

  // ---------------------------------------------------------------------------
  // Rainbow

  /** `(state + i) & 255`: the wheel position of pixel `i`; the mask is the remainder mod 256. */
  function HueIndex(state: nat, i: nat): (h: nat)
    ensures h == (state + i) % 256
  {
    BitAndLowMask(state + i, 8);
    assert Pow2(8) - 1 == 255;
    BitAnd(state + i, 255)
  }

  /** `sin(...) * 0.4 + 0.6` */
  function RainbowFactor(sine: real): (f: real)
    ensures -1.0 <= sine <= 1.0 ==> 0.2 <= f <= 1.0
  {
    sine * 0.4 + 0.6
  }

  /** `FuncRainbow.get(i)` */
  function RainbowSample(state: nat, i: nat, sine: real): ColorValue
  {
    Scale(Wheel(HueIndex(state, i)), RainbowFactor(sine))
  }

  /**
   * A rainbow pixel is never dark: it is the wheel colour at its position,
   * whose channels sum to 255, dimmed to between 20% and 100%.
   */
  lemma RainbowSampleBounds(state: nat, i: nat, sine: real)
    requires -1.0 <= sine <= 1.0
    ensures var c := RainbowSample(state, i, sine);
      && !c.black && NonNegative(c) && WellFormed(c)
      && 51.0 <= c.red + c.green + c.blue <= 255.0
  {
    var h := HueIndex(state, i);
    assert 0 <= h < 256;
    WheelScaled(Wheel(h), RainbowFactor(sine));
  }

  /** A wheel colour dimmed to between 20% and 100% keeps a channel sum between 51 and 255. */
  lemma WheelScaled(w: ColorValue, f: real)
    requires !w.black && NonNegative(w) && WellFormed(w) && w.red + w.green + w.blue == 255.0
    requires 0.2 <= f <= 1.0
    ensures var c := Scale(w, f);
      && !c.black && NonNegative(c) && WellFormed(c)
      && 51.0 <= c.red + c.green + c.blue <= 255.0
  {
    ScaledSum(w, f);
    var c := Scale(w, f);
    assert c.red + c.green + c.blue == 255.0 * f;
  }

  lemma ScaledSum(w: ColorValue, f: real)
    requires !w.black && f >= 0.0
    ensures var c := Scale(w, f); c.red + c.green + c.blue == (w.red + w.green + w.blue) * f
  {
    var c := Scale(w, f);
    assert c.red == w.red * f && c.green == w.green * f && c.blue == w.blue * f;
    Distribute(w.red, w.green, w.blue, f);
  }

  lemma Distribute(a: real, b: real, c: real, f: real)
    ensures a * f + b * f + c * f == (a + b + c) * f
  {
  }

  /** `FuncRainbow`: a rolling rainbow with a travelling brightness wave. */
  class Rainbow {
    var state: nat
    var pos: real
    const wave: real
    const shift: real

    ghost predicate Valid()
      reads this
    {
      state < 256
    }

    /** `FuncRainbow()`, given `random.randrange(2, 5)` and `random.randrange(20, 100)`. */
    constructor (waveDraw: int, shiftDraw: int)
      requires 2 <= waveDraw < 5 && 20 <= shiftDraw < 100
      ensures Valid() && state == 0 && pos == 0.0
      ensures wave == waveDraw as real / 10.0 && shift == shiftDraw as real / 200.0
    {
      state := 0;
      pos := 0.0;
      wave := waveDraw as real / 10.0;
      shift := shiftDraw as real / 200.0;
    }

    /** `get(i)`; `sine` is `sin(i * wave + pos)`. */
    function Sample(i: nat, sine: real): (c: ColorValue)
      reads this
      requires -1.0 <= sine <= 1.0
      ensures !c.black && NonNegative(c) && WellFormed(c)
      ensures c == Scale(Wheel((state + i) % 256), RainbowFactor(sine))
      ensures Valid() && i == 0 ==> c == Scale(Wheel(state), RainbowFactor(sine))
    {
      RainbowSampleBounds(state, i, sine);
      assert state < 256 ==> (state + 0) % 256 == state;
      RainbowSample(state, i, sine)
    }

    /** `next_frame()`: the phase steps by one position and wraps at 256. */
    method NextFrame()
      requires Valid()
      modifies this
      ensures Valid()
      ensures state == (old(state) + 1) % 256 && pos == old(pos) + shift
    {
      state := HueIndex(state, 1);
      pos := pos + shift;
    }
  }

  // ---------------------------------------------------------------------------
  // Moving dots

  /** The dot envelope: dark below 0.1, otherwise the colour scaled by the envelope. */
  function DotSample(color: ColorValue, m: real): ColorValue
  {
    if m < 0.1 then Black else Scale(color, m)
  }

  /** `FuncMoveingDots1.get(i)`: a dot is lit exactly where `sin * brightness >= 0.1`. */
  function Dots1Sample(color: ColorValue, brightness: real, sine: real): (c: ColorValue)
    requires NonNegative(color) && WellFormed(color) && !color.black
    ensures c.black <==> sine * brightness < 0.1
    ensures NonNegative(c) && WellFormed(c)
    ensures !c.black ==> c == Scale(color, sine * brightness) && sine * brightness >= 0.1
  {
    DotSample(color, sine * brightness)
  }

  /** `FuncMoveingDots2.get(i)`: `4 * sin - 3` lights a dot only where `sin >= 0.775`, at most at full colour. */
  function Dots2Sample(color: ColorValue, sine: real): (c: ColorValue)
    requires NonNegative(color) && WellFormed(color) && !color.black
    ensures c.black <==> sine < 0.775
    ensures NonNegative(c) && WellFormed(c)
    ensures sine <= 1.0 && !c.black ==> c == Scale(color, sine * 4.0 - 3.0) && 0.1 <= sine * 4.0 - 3.0 <= 1.0
  {
    DotSample(color, sine * 4.0 - 3.0)
  }

  /** `FuncMoveingDots1`: bright dots of one hue drifting along the strip. */
  class MovingDots1 {
    var state: real
    const brightness: real
    const color: ColorValue
    const wave: real
    const shift: real

    ghost predicate Valid()
      reads this
    {
      NonNegative(color) && WellFormed(color) && !color.black
    }

    /**
     * `FuncMoveingDots1(brightness, speed)`, given `random.randrange(256)`,
     * `random.randrange(2, 5)` and `random.randrange(-100, 100)`.
     */
    constructor (brightness: real, speed: real, hue: int, waveDraw: int, shiftDraw: int)
      requires 0 <= hue < 256 && 2 <= waveDraw < 5 && -100 <= shiftDraw < 100
      ensures Valid() && state == 0.0 && this.brightness == brightness
      ensures color == Wheel(hue) && wave == waveDraw as real / 10.0
      ensures shift == shiftDraw as real / 200.0 * speed
    {
      state := 0.0;
      this.brightness := brightness;
      color := Wheel(hue);
      wave := waveDraw as real / 10.0;
      shift := shiftDraw as real / 200.0 * speed;
    }

    /** `get(i)`; `sine` is `sin(i * wave + state)`. */
    function Sample(sine: real): (c: ColorValue)
      reads this
      requires Valid()
      ensures c == Dots1Sample(color, brightness, sine)
      ensures c.black <==> sine * brightness < 0.1
      ensures !c.black ==> c == Scale(color, sine * brightness)
    {
      Dots1Sample(color, brightness, sine)
    }

    /** `next_frame()` */
    method NextFrame()
      modifies this
      ensures state == old(state) + shift
    {
      state := state + shift;
    }
  }

  /** `FuncMoveingDots2`: sharper dots, one to three per strip length. */
  class MovingDots2 {
    var state: real
    const color: ColorValue
    /** `wave` is `2 * pi * waveCycles / LED_COUNT`. */
    const waveCycles: int
    const speed: real

    ghost predicate Valid()
      reads this
    {
      NonNegative(color) && WellFormed(color) && !color.black
    }

    /** `FuncMoveingDots2()`, given `random.randrange(256)`, `random.randrange(3)` and `random.randrange(-100, 100)`. */
    constructor (hue: int, waveDraw: int, speedDraw: int)
      requires 0 <= hue < 256 && 0 <= waveDraw < 3 && -100 <= speedDraw < 100
      ensures Valid() && state == 0.0 && color == Wheel(hue)
      ensures 1 <= waveCycles <= 3 && waveCycles == waveDraw + 1
      ensures speed == speedDraw as real / 200.0
    {
      state := 0.0;
      color := Wheel(hue);
      waveCycles := waveDraw + 1;
      speed := speedDraw as real / 200.0;
    }

    /** `get(i)`; `sine` is `sin(i * wave + state)`. */
    function Sample(sine: real): (c: ColorValue)
      reads this
      requires Valid()
      ensures c == Dots2Sample(color, sine)
      ensures c.black <==> sine < 0.775
      ensures sine <= 1.0 && !c.black ==> c == Scale(color, sine * 4.0 - 3.0)
    {
      Dots2Sample(color, sine)
    }

    /** `next_frame()` */
    method NextFrame()
      modifies this
      ensures state == old(state) + speed
    {
      state := state + speed;
    }
  }

  /** `FuncMoveCombine`: a dim, slow MovingDots1 layered over a MovingDots2. */
  class MoveCombine {
    const f1: MovingDots1
    const f2: MovingDots2

    ghost predicate Valid()
      reads this, f1, f2
    {
      f1.Valid() && f2.Valid() && f1.brightness == 0.2
    }

    /** `FuncMoveCombine()`, given the draws of its two parts. */
    constructor (hue1: int, waveDraw1: int, shiftDraw1: int, hue2: int, waveDraw2: int, speedDraw2: int)
      requires 0 <= hue1 < 256 && 2 <= waveDraw1 < 5 && -100 <= shiftDraw1 < 100
      requires 0 <= hue2 < 256 && 0 <= waveDraw2 < 3 && -100 <= speedDraw2 < 100
      ensures Valid() && fresh(f1) && fresh(f2)
      ensures f1.color == Wheel(hue1) && f1.wave == waveDraw1 as real / 10.0 && f1.state == 0.0
      ensures f1.shift == shiftDraw1 as real / 200.0 * 0.1
      ensures f2.color == Wheel(hue2) && f2.waveCycles == waveDraw2 + 1 && f2.speed == speedDraw2 as real / 200.0
      ensures f2.state == 0.0
    {
      f1 := new MovingDots1(0.2, 0.1, hue1, waveDraw1, shiftDraw1);
      f2 := new MovingDots2(hue2, waveDraw2, speedDraw2);
    }

    /** `get(i)`; `sine1` and `sine2` are the two parts' sine values at pixel `i`. */
    function Sample(sine1: real, sine2: real): (c: ColorValue)
      reads this, f1, f2
      requires Valid()
      ensures c == Add(f1.Sample(sine1), f2.Sample(sine2))
      ensures NonNegative(c) && WellFormed(c)
      ensures c.black <==> sine1 * 0.2 < 0.1 && sine2 < 0.775
    {
      Add(f1.Sample(sine1), f2.Sample(sine2))
    }

    /** `next_frame()`: both parts advance. */
    method NextFrame()
      modifies f1, f2
      ensures f1.state == old(f1.state) + f1.shift
      ensures f2.state == old(f2.state) + f2.speed
    {
      f1.NextFrame();
      f2.NextFrame();
    }
  }
}
