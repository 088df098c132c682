/**
 * The per-pixel generators of tree.py (`LightFuncN` and its subclasses
 * `FuncFade1`, `FuncFade2`, `FuncSparkling1`). Each keeps one counter per
 * pixel in a list that `next_frame` updates in place; here that list is an
 * array of `LedCount` integers.
 *
 * The random draws of the source are parameters: `draw` is `None` when the
 * one-in-five (Fade1) or one-in-ten (Fade2) trigger did not fire this frame,
 * and `Some(i)` with the pixel index drawn when it did.
 */
module Counters {
  import opened Wrappers
  import opened Colors
  import opened Palette

  /** `LED_COUNT`, the number of pixels on the strip. */
  const LedCount: nat := 100

  /** The counter value Fade1 gives a pixel it lights. */
  const Fade1Life: int := 24

  /** `slow`, `slow2` and `fast` of Fade2 and Sparkling1. */
  const Slow: int := 50
  const Slow2: int := 100
  const Fast: int := 20

  /** `slow2 + fast + 4`, the counter value of a pixel Fade2 pushes into its flash. */
  const FlashStart: int := Slow2 + Fast + 4

  predicate AllIn(s: seq<int>, lo: int, hi: int)
  {
    forall i :: 0 <= i < |s| ==> lo <= s[i] <= hi
  }

  // ---------------------------------------------------------------------------
  // Counter updates, one pixel and the whole strip

  /** One pixel of `LightFuncN.next_frame`: a non-zero counter goes down by one. */
  function Tick(x: int): int
  {
    if x != 0 then x - 1 else x
  }

  /** One pixel of the Fade2 / Sparkling1 loop: down by one, and 0 wraps to `slow2`. */
  function TickWrap(x: int): int
  {
    if x != 0 then x - 1 else Slow2
  }

  function Ticked(s: seq<int>): (r: seq<int>)
    ensures |r| == |s|
  {
    seq(|s|, i requires 0 <= i < |s| => Tick(s[i]))
  }

  function TickWrapped(s: seq<int>): (r: seq<int>)
    ensures |r| == |s|
  {
    seq(|s|, i requires 0 <= i < |s| => TickWrap(s[i]))
  }

  /** `FuncFade1.next_frame`: tick every pixel, then light the drawn pixel if it is idle. */
  function Fade1Step(s: seq<int>, draw: Option<nat>): seq<int>
    requires draw.Some? ==> draw.value < |s|
  {
    var d := Ticked(s);
    if draw.Some? && d[draw.value] == 0 then d[draw.value := Fade1Life] else d
  }

  /** `FuncFade2.next_frame`: tick-and-wrap every pixel, then flash the drawn one if it is in its background range. */
  function Fade2Step(s: seq<int>, draw: Option<nat>): seq<int>
    requires draw.Some? ==> draw.value < |s|
  {
    var w := TickWrapped(s);
    if draw.Some? && w[draw.value] <= Slow2 then w[draw.value := FlashStart] else w
  }

  /** `n` frames of ticking on one counter. */
  function TickTimes(x: int, n: nat): int
  {
    if n == 0 then x else Tick(TickTimes(x, n - 1))
  }

  /** `n` frames of tick-and-wrap on one counter. */
  function TickWrapTimes(x: int, n: nat): int
  {
    if n == 0 then x else TickWrap(TickWrapTimes(x, n - 1))
  }

  /** A non-negative counter stays non-negative, stays at zero once there, and otherwise goes down by one. */
  lemma TickedCounters(s: seq<int>, hi: int)
    requires AllIn(s, 0, hi)
    ensures AllIn(Ticked(s), 0, hi)
    ensures forall i :: 0 <= i < |s| && s[i] == 0 ==> Ticked(s)[i] == 0
    ensures forall i :: 0 <= i < |s| && s[i] > 0 ==> Ticked(s)[i] == s[i] - 1
  {
  }

  /** A pixel left alone for `n` frames reads `max(x - n, 0)`: a lit Fade1 pixel goes dark after exactly its counter's frames. */
  lemma {:induction false} TickTimesCountsDown(x: int, n: nat)
    requires x >= 0
    ensures TickTimes(x, n) == if x > n then x - n else 0
  {
    if n > 0 {
      TickTimesCountsDown(x, n - 1);
    }
  }

  /** The background counter cycles with period `slow2 + 1`: after `n` frames it reads `(x - n) mod 101`. */
  lemma {:induction false} TickWrapTimesCycles(x: int, n: nat)
    requires 0 <= x <= Slow2
    ensures TickWrapTimes(x, n) == (x - n) % (Slow2 + 1)
  {
    if n > 0 {
      TickWrapTimesCycles(x, n - 1);
      var y := TickWrapTimes(x, n - 1);
      assert 0 <= y <= Slow2;
      if y == 0 {
        assert (x - (n - 1)) % (Slow2 + 1) == 0;
        assert (x - n) % (Slow2 + 1) == Slow2;
      } else {
        assert (x - n) % (Slow2 + 1) == y - 1;
      }
    }
  }

  /** Fade1 keeps every counter in [0, 24]; it lights only an idle pixel, only to 24, and every other pixel just ticks. */
  lemma Fade1StepCounters(s: seq<int>, draw: Option<nat>)
    requires draw.Some? ==> draw.value < |s|
    requires AllIn(s, 0, Fade1Life)
    ensures AllIn(Fade1Step(s, draw), 0, Fade1Life)
    ensures forall i :: 0 <= i < |s| && (draw.None? || i != draw.value) ==> Fade1Step(s, draw)[i] == Tick(s[i])
    ensures forall i :: 0 <= i < |s| && Fade1Step(s, draw)[i] != Tick(s[i]) ==> Tick(s[i]) == 0 && Fade1Step(s, draw)[i] == Fade1Life
  {
  }

  /** Fade2 keeps every counter in [0, 124]; it flashes only a pixel in its background range. */
  lemma Fade2StepCounters(s: seq<int>, draw: Option<nat>)
    requires draw.Some? ==> draw.value < |s|
    requires AllIn(s, 0, FlashStart)
    ensures AllIn(Fade2Step(s, draw), 0, FlashStart)
    ensures forall i :: 0 <= i < |s| && (draw.None? || i != draw.value) ==> Fade2Step(s, draw)[i] == TickWrap(s[i])
    ensures forall i :: 0 <= i < |s| && Fade2Step(s, draw)[i] != TickWrap(s[i]) ==> TickWrap(s[i]) <= Slow2 && Fade2Step(s, draw)[i] == FlashStart
  {
  }

  /** Sparkling1 keeps every counter in [0, 100]. */
  lemma TickWrappedCounters(s: seq<int>)
    requires AllIn(s, 0, Slow2)
    ensures AllIn(TickWrapped(s), 0, Slow2)
  {
  }

  /** `LightFuncN.next_frame`, in place. */
  method TickAll(state: array<int>)
    modifies state
    ensures state[..] == Ticked(old(state[..]))
  {
    var i := 0;
    while i < state.Length
      invariant 0 <= i <= state.Length
      invariant forall j :: 0 <= j < i ==> state[j] == Tick(old(state[j]))
      invariant forall j :: i <= j < state.Length ==> state[j] == old(state[j])
    {
      if state[i] != 0 {
        state[i] := state[i] - 1;
      }
      i := i + 1;
    }
  }

  /** The decrement-or-wrap loop of Fade2 and Sparkling1, in place. */
  method TickWrapAll(state: array<int>)
    modifies state
    ensures state[..] == TickWrapped(old(state[..]))
  {
    var i := 0;
    while i < state.Length
      invariant 0 <= i <= state.Length
      invariant forall j :: 0 <= j < i ==> state[j] == TickWrap(old(state[j]))
      invariant forall j :: i <= j < state.Length ==> state[j] == old(state[j])
    {
      if state[i] != 0 {
        state[i] := state[i] - 1;
      } else {
        state[i] := Slow2;
      }
      i := i + 1;
    }
  }

  /** `[random.randrange(100) for each pixel]`, given the draws. */
  method InitialCounters(draws: seq<int>) returns (state: array<int>)
    requires |draws| == LedCount
    ensures fresh(state) && state[..] == draws
  {
    state := new int[LedCount](_ => 0);
    var i := 0;
    while i < LedCount
      invariant 0 <= i <= LedCount
      invariant forall j :: 0 <= j < i ==> state[j] == draws[j]
    {
      state[i] := draws[i];
      i := i + 1;
    }
  }

  // ---------------------------------------------------------------------------
  // Brightness of a pixel as a function of its counter

  /** The factor `FuncFade1.get` applies to a lit pixel. */
  function Fade1Factor(s: int): (f: real)
    ensures 1 <= s <= Fade1Life ==> 0.0 < f <= 1.0
    ensures f == 1.0 <==> s == 20
  {
    if s < 20 then s as real / 20.0 else (25 - s) as real / 5.0
  }

  /** `FuncFade1.get(i)` for a pixel whose counter is `s`. */
  function Fade1Sample(color: ColorValue, s: int): ColorValue
  {
    if s == 0 then Black else Scale(color, Fade1Factor(s))
  }

  /**
   * The counter runs down from 24: the pixel brightens over its first five
   * frames (24 down to 20), peaks at 20, and fades over the remaining
   * nineteen.
   */
  lemma Fade1Envelope(s: int, t: int)
    ensures 20 <= s < t <= Fade1Life ==> Fade1Factor(t) < Fade1Factor(s)
    ensures 1 <= s < t <= 20 ==> Fade1Factor(s) < Fade1Factor(t)
  {
  }

  /** A Fade1 pixel is dark at counter 0, and otherwise shows its hue scaled by a factor in (0, 1]. */
  lemma Fade1SampleBounds(color: ColorValue, s: int)
    requires NonNegative(color) && WellFormed(color) && !color.black
    requires 0 <= s <= Fade1Life
    ensures Fade1Sample(color, s).black <==> s == 0
    ensures s == 0 ==> Pack(Fade1Sample(color, s)) == 0
    ensures s != 0 ==> Fade1Sample(color, s) == Scale(color, Fade1Factor(s)) && 0.0 < Fade1Factor(s) <= 1.0
    ensures NonNegative(Fade1Sample(color, s)) && WellFormed(Fade1Sample(color, s))
  {
  }

  /** The breathing factor of the Fade2 / Sparkling1 background. */
  function BreathFactor(s: int): (f: real)
  {
    if s < Slow then (Slow - s) as real / Slow as real else (s - Slow) as real / Slow as real
  }

  /** The background breathes as `|s - 50| / 50`: full at 0 and 100, dark at 50, always within [0, 1]. */
  lemma BreathFactorShape(s: int)
    ensures BreathFactor(s) == (if s < Slow then Slow - s else s - Slow) as real / 50.0
    ensures 0 <= s <= Slow2 ==> 0.0 <= BreathFactor(s) <= 1.0
    ensures BreathFactor(s) == 0.0 <==> s == Slow
    ensures BreathFactor(0) == 1.0 && BreathFactor(Slow2) == 1.0
  {
  }

  /** `FuncFade2.get(i)` for a pixel whose counter is `s`. */
  function Fade2Sample(color1: ColorValue, color2: ColorValue, s: int): ColorValue
  {
    if s <= Slow2 then Scale(color2, BreathFactor(s))
    else if s < Slow2 + Fast then Add(color2, Scale(color1, (s - Slow2) as real / Fast as real))
    else Scale(color1, (Slow2 + Fast + 5 - s) as real / 5.0)
  }

  /**
   * The three phases of a Fade2 pixel. Up to 100 it is the breathing
   * background; from 101 to 119 the flash is added on top of the full
   * background; from 120 on the flash alone is shown. The flash itself
   * follows exactly the Fade1 envelope, shifted by 100.
   */
  lemma Fade2Phases(color1: ColorValue, color2: ColorValue, s: int)
    ensures s <= Slow2 ==> Fade2Sample(color1, color2, s) == Scale(color2, BreathFactor(s))
    ensures Slow2 < s < Slow2 + Fast ==> Fade2Sample(color1, color2, s) == Add(color2, Fade1Sample(color1, s - Slow2))
    ensures Slow2 + Fast <= s ==> Fade2Sample(color1, color2, s) == Fade1Sample(color1, s - Slow2)
  {
  }

  /** Every Fade2 pixel is a valid colour: non-negative, and the flag only on zero channels. */
  lemma Fade2SampleValid(color1: ColorValue, color2: ColorValue, s: int)
    requires NonNegative(color1) && WellFormed(color1) && !color1.black
    requires NonNegative(color2) && WellFormed(color2)
    requires 0 <= s <= FlashStart
    ensures NonNegative(Fade2Sample(color1, color2, s))
    ensures WellFormed(Fade2Sample(color1, color2, s))
  {
  }

  /** `FuncSparkling1.get(i)`; `sparkle` is the one-in-`LED_COUNT * 10` draw. */
  function Sparkling1Sample(color1: ColorValue, color2: ColorValue, s: int, sparkle: bool): ColorValue
  {
    if sparkle then color1
    else if s <= Slow2 then Scale(color2, BreathFactor(s))
    else color2
  }

  /** Without a sparkle, a Sparkling1 pixel shows the same breathing background as Fade2. */
  lemma SparklingBackground(color1: ColorValue, color2: ColorValue, s: int)
    requires s <= Slow2
    ensures Sparkling1Sample(color1, color2, s, false) == Fade2Sample(color1, color2, s)
    ensures Sparkling1Sample(color1, color2, s, true) == color1
  {
  }

  // ---------------------------------------------------------------------------
  // The generator objects

  /** `FuncFade1`: random pixels light up in one hue and fade out. */
  class Fade1 {
    const color: ColorValue
    const state: array<int>

    ghost predicate Valid()
      reads this, state
    {
      && state.Length == LedCount
      && AllIn(state[..], 0, Fade1Life)
      && NonNegative(color) && WellFormed(color) && !color.black
    }

    /** `FuncFade1()`, given the hue drawn by `random.randrange(256)`. */
    constructor (hue: int)
      requires 0 <= hue < 256
      ensures Valid() && fresh(state)
      ensures color == Wheel(hue)
      ensures forall i :: 0 <= i < LedCount ==> state[i] == 0
    {
      color := Wheel(hue);
      state := new int[LedCount](_ => 0);
    }

    /** `get(i)` */
    function Sample(i: int): (c: ColorValue)
      reads this, state
      requires Valid() && 0 <= i < LedCount
      ensures c.black <==> state[i] == 0
      ensures state[i] != 0 ==> c == Scale(color, Fade1Factor(state[i]))
      ensures NonNegative(c) && WellFormed(c)
    {
      Fade1SampleBounds(color, state[i]);
      Fade1Sample(color, state[i])
    }

    /** `next_frame()` */
    method NextFrame(draw: Option<nat>)
      requires Valid()
      requires draw.Some? ==> draw.value < LedCount
      modifies state
      ensures Valid()
      ensures state[..] == Fade1Step(old(state[..]), draw)
    {
      TickAll(state);
      if draw.Some? && state[draw.value] == 0 {
        state[draw.value] := Fade1Life;
      }
      Fade1StepCounters(old(state[..]), draw);
    }
  }

  /** `FuncFade2`: a breathing background in one colour with occasional flashes in a hue. */
  class Fade2 {
    const color1: ColorValue
    const color2: ColorValue
    const state: array<int>

    ghost predicate Valid()
      reads this, state
    {
      && state.Length == LedCount
      && AllIn(state[..], 0, FlashStart)
      && NonNegative(color1) && WellFormed(color1) && !color1.black
      && NonNegative(color2) && WellFormed(color2)
    }

    /**
     * `FuncFade2()`, given the draws: the hue of the flash, the index into the
     * fixed palette for the background, and each pixel's starting counter.
     */
    constructor (hue: int, fixed: int, draws: seq<int>)
      requires 0 <= hue < 256 && 0 <= fixed < 7
      requires |draws| == LedCount && AllIn(draws, 0, Slow2 - 1)
      ensures Valid() && fresh(state)
      ensures color1 == Wheel(hue) && color2 == Scale(Fixcolor(fixed), 0.08)
      ensures state[..] == draws
    {
      color1 := Wheel(hue);
      color2 := Scale(Fixcolor(fixed), 0.08);
      var counters := InitialCounters(draws);
      state := counters;
    }

    /** `get(i)` */
    function Sample(i: int): (c: ColorValue)
      reads this, state
      requires Valid() && 0 <= i < LedCount
      ensures NonNegative(c) && WellFormed(c)
      ensures state[i] <= Slow2 ==> c == Scale(color2, BreathFactor(state[i]))
      ensures Slow2 < state[i] < Slow2 + Fast ==> c == Add(color2, Fade1Sample(color1, state[i] - Slow2))
      ensures Slow2 + Fast <= state[i] ==> c == Fade1Sample(color1, state[i] - Slow2)
    {
      Fade2SampleValid(color1, color2, state[i]);
      Fade2Phases(color1, color2, state[i]);
      Fade2Sample(color1, color2, state[i])
    }

    /** `next_frame()` */
    method NextFrame(draw: Option<nat>)
      requires Valid()
      requires draw.Some? ==> draw.value < LedCount
      modifies state
      ensures Valid()
      ensures state[..] == Fade2Step(old(state[..]), draw)
    {
      TickWrapAll(state);
      if draw.Some? && state[draw.value] <= Slow2 {
        state[draw.value] := FlashStart;
      }
      Fade2StepCounters(old(state[..]), draw);
    }
  }

  /** `FuncSparkling1`: the Fade2 background with rare single-frame sparkles. */
  class Sparkling1 {
    const color1: ColorValue
    const color2: ColorValue
    const state: array<int>

    ghost predicate Valid()
      reads this, state
    {
      && state.Length == LedCount
      && AllIn(state[..], 0, Slow2)
      && NonNegative(color1) && WellFormed(color1)
      && NonNegative(color2) && WellFormed(color2)
    }

    /** `FuncSparkling1()`, given the same draws as Fade2. */
    constructor (hue: int, fixed: int, draws: seq<int>)
      requires 0 <= hue < 256 && 0 <= fixed < 7
      requires |draws| == LedCount && AllIn(draws, 0, Slow2 - 1)
      ensures Valid() && fresh(state)
      ensures color1 == Wheel(hue) && color2 == Scale(Fixcolor(fixed), 0.08)
      ensures state[..] == draws
    {
      color1 := Wheel(hue);
      color2 := Scale(Fixcolor(fixed), 0.08);
      var counters := InitialCounters(draws);
      state := counters;
    }

    /** `get(i)`; `sparkle` is whether `random.randrange(LED_COUNT * 10) == 0` this time. */
    function Sample(i: int, sparkle: bool): (c: ColorValue)
      reads this, state
      requires Valid() && 0 <= i < LedCount
      ensures NonNegative(c) && WellFormed(c)
      ensures sparkle ==> c == color1
    {
      Sparkling1Sample(color1, color2, state[i], sparkle)
    }

    /** `next_frame()` */
    method NextFrame()
      requires Valid()
      modifies state
      ensures Valid()
      ensures state[..] == TickWrapped(old(state[..]))
    {
      TickWrapAll(state);
      TickWrappedCounters(old(state[..]));
    }
  }
}
