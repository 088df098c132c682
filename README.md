# xmastree2021 in Dafny

This project models the animation engine of `tree.py`, a Python program that drives a strip of 100 addressable
LEDs on a Christmas tree. The engine has four parts, and each is modelled and proved here:

- **Colour accumulator (`Colors`).** `Color` holds three channels and a `black` flag meaning "nothing contributed
  yet". Its three in-place operations are merging (`+=`), scaling (`*=`) and `get`. `get` clamps the channels at 255,
  rounds them, and packs them into the integer `(red << 8) | (green << 16) | blue`.
- **Palettes (`Palette`).** `wheel` is the 256-position hue cycle. `fixcolor` is the table of seven fixed colours.
- **Pattern generators (`Phases`, `Counters`).** Each has its own classes and methods.
  - Rainbow and the two moving-dot patterns keep a scalar phase.
  - Fade1, Fade2 and Sparkling1 keep one counter per pixel in an array, which `next_frame` updates in place.
- **Scheduler (`Scheduler`).** `Tree` holds the current pattern `func1`, the incoming pattern `func2` and the
  cross-fade amount `mix`.
  - `Configure` models the scene choice of `Tree.__init__`.
  - Each pass of the frame loop of `run` does three things:
    - it advances the patterns;
    - it starts a transition when the scene deadline passes, and steps it for 50 frames;
    - it paces frames to one every 40 ms.
  - `Frame` and `Frames` specify the loop, and `Tree.Run` is proved against them.

The stateful parts are Dafny classes whose methods are proved against pure specification functions:

- `Color.AddAssign`, `ScaleAssign` and `Get` match `Add`, `Scale` and `ClampTop`/`Pack`.
- The counter loops match `Ticked`, `TickWrapped`, `Fade1Step` and `Fade2Step`.
- `Tree.Run` matches `Frames`.

The properties are then proved about those functions.

Modelling choices:

- **Channels.** Channels are exact reals. Python's `round` is modelled as round-half-to-even on reals.
- **Bit operators.** Python's `<<`, `>>`, `|` and `&` are modelled on unbounded naturals in module `Bits`.
- **Sine values.** `math.sin` is not computed. Every sample takes the sine value as a parameter in [-1, 1].
- **Random draws.** Every random draw is a parameter:
  - the hue and table indices at construction;
  - the starting counters;
  - the one-in-five or one-in-ten trigger together with its pixel index (`draw: Option<nat>`);
  - the sparkle draw;
  - the pattern class `random.choice` would pick.
- **Clock and sleep.** Each frame reads the clock twice, and both readings are inputs (`FrameInput`). The duration
  passed to `time.sleep` is an output of `Tree.Run`.
- **Mix.** `mix` is kept as an integer count of 0.02 steps. The source's `mix` is that count divided by 50, and a
  transition ends when the count reaches 50.

Behaviour of `tree.py` worth knowing:

- `Color.get` clamps channels only from above. There is no lower clamp at 0.
- A Fade1 pixel is lit at counter 24 and counts down. It brightens over counters 24 to 20 (five frames), peaks at 20,
  and fades over counters 19 to 1.
- `wheel(255)` is `(0, 255, 0)`, the same as `wheel(0)`.
- `mix` is not reset when the incoming pattern is promoted. It stays at 1 until the next transition sets it to 0.
- The guard `action < len(funclist)` lets a negative `--action` through, and Python then indexes from the end of the
  list. An action below -7 makes `Tree.__init__` raise `IndexError`, which `Configure` returns as a `Failure`.

## Model

| member | source | states |
|---|---|---|
| Bits.BitOr | tree.py:59 | Python's `|` on non-negative integers, bit by bit; `BitOrCommutes` and `BitOrDisjoint` state its properties |
| Bits.BitAnd | tree.py:122-128 | Python's `&` on non-negative integers, bit by bit; `BitAndLowMask` states that a low mask takes a remainder |
| Bits.ShiftLeft | tree.py:59 | `x << k`, which is `x * 2^k`; `PackChannelsLayout` states where each shifted channel lands |
| Bits.ShiftRight | tree.py:59 | read-back of line 59, which has no `>>` itself: `x >> k`, which is `x / 2^k` rounded down; used by `ByteAt` to read back the bytes that `get` packs |
| Bits.BitOrDisjoint | tree.py:59 | or-ing a value below 2^k into a multiple of 2^k is addition, so the channel fields do not overlap |
| Bits.BitOrCommutes | tree.py:59 | `|` is commutative |
| Bits.BitAndLowMask | tree.py:128 | `a & (2^k - 1)` is `a mod 2^k` |
| Colors.MakeColor | tree.py:20-24 | the `Color(red, green, blue)` value, flagged empty exactly when all three channels are 0; `Color.constructor` states this |
| Colors.Add | tree.py:26-38 | the result is empty exactly when both operands are; non-negativity and the flag-on-zero invariant are preserved |
| Colors.AddEmpty | tree.py:26-38 | the empty colour is an identity on both sides of `+=` |
| Colors.AddSums | tree.py:26-38 | `+=` adds channel-wise, with the empty colour counting as zero |
| Colors.Scale | tree.py:40-48 | the empty flag is unchanged; non-negativity and the flag invariant are preserved |
| Colors.ScaleFactors | tree.py:40-48 | a negative factor acts exactly like 0; a factor of 1 changes nothing |
| Colors.ScaleToNothing | tree.py:40-59 | a colour scaled by a factor of 0 or less packs to 0 |
| Colors.ClampTop | tree.py:50-57 | after `get` every channel is at most 255; a valid non-negative colour lies in the byte range; the flag is unchanged |
| Colors.ClampChannel | tree.py:53-58 | one channel's `if x > 255: x = 255`; `ClampTop` states the resulting bound |
| Colors.RoundHalfEven | tree.py:59 | the nearest integer, with ties going to the even one |
| Colors.RoundInteger | tree.py:59 | rounding an integer returns that integer |
| Colors.ChannelByte | tree.py:53-59 | a transmitted channel is below 256; it is the nearest integer within range and 255 above it |
| Colors.PackChannels | tree.py:59 | the expression `(red << 8) | (green << 16) | blue`; `PackChannelsLayout` states its value and that each byte reads back |
| Colors.ByteAt | tree.py:59 | read-back of line 59's packing, which has no `>>` or `& 255` itself: `(v >> shift) & 255`, one byte of a packed value; `PackChannelsLayout` and `PackRoundTrip` state that it undoes the packing |
| Colors.Pack | tree.py:50-59 | the value `get` returns; `PackRoundTrip` states that it is 0 for an empty colour and otherwise the clamped, rounded channels |
| Colors.PackChannelsLayout | tree.py:59 | the packed value is `red*2^8 + green*2^16 + blue` and below 2^24; `(v >> s) & 255` recovers each channel |
| Colors.PackRoundTrip | tree.py:50-59 | `get` returns 0 for an empty colour; otherwise its three bytes are the clamped, rounded channels |
| Colors.PackIntegerChannels | tree.py:50-59 | for integer channels the bytes read back are the channels themselves, cut at 255 |
| Colors.GetIdempotent | tree.py:50-59 | the clamp `get` leaves behind is idempotent, and a second `get` returns the same value |
| Colors.Color.constructor | tree.py:20-24 | the new object has the given channels, flagged empty exactly when all three are 0 |
| Colors.Color.Copy | tree.py:145 | `copy.copy` yields a fresh object with the same channels and flag |
| Colors.Color.AddAssign | tree.py:26-38 | the object's new value is `Add` of the old values, which also covers adding an object to itself |
| Colors.Color.ScaleAssign | tree.py:40-48 | the object's new value is `Scale` of its old value |
| Colors.Color.Get | tree.py:50-59 | the fields end as `ClampTop` of the old value, and the result is `Pack` of the old value |
| Palette.Wheel | tree.py:62-71 | every wheel colour in 0..255 is non-empty, within the byte range, and has channels summing to 255 |
| Palette.WheelBreakpoints | tree.py:62-71 | the segments start at green, red and blue; position 255 returns to the colour of position 0 |
| Palette.WheelContinuous | tree.py:62-71 | adjacent positions differ by at most 3 in every channel |
| Palette.Fixcolor | tree.py:74-87 | every table colour is non-empty and within the byte range, with channels in {0, 128, 255} |
| Palette.FixcolorTable | tree.py:74-87 | the six listed colours, and white for every other index |
| Counters.Tick | tree.py:109-111 | one pixel of `LightFuncN.next_frame`: a non-zero counter drops by one; `TickedCounters` states its effect |
| Counters.TickWrap | tree.py:281-284 | one pixel of the Fade2 and Sparkling1 loop: down by one, and 0 wraps to 100; `TickWrapTimesCycles` states the cycle |
| Counters.Ticked | tree.py:108-111 | `Tick` on every counter, keeping the length; `TickedCounters` states its effect |
| Counters.TickWrapped | tree.py:280-284 | `TickWrap` on every counter, keeping the length; `TickWrappedCounters` states its bounds |
| Counters.Fade1Step | tree.py:205-210 | tick every counter, then light the drawn pixel with 24 if it is idle; `Fade1StepCounters` states its effect |
| Counters.Fade2Step | tree.py:243-252 | tick-and-wrap every counter, then set the drawn pixel to 124 if it is at most 100; `Fade2StepCounters` states its effect |
| Counters.TickedCounters | tree.py:108-111 | a counter at 0 stays at 0, a positive counter drops by one, and the bounds are kept |
| Counters.TickTimesCountsDown | tree.py:108-111 | after n frames a counter x reads `max(x - n, 0)` |
| Counters.TickWrapTimesCycles | tree.py:279-284 | the wrapping counter cycles with period 101: after n frames it reads `(x - n) mod 101` |
| Counters.TickAll | tree.py:108-111 | the in-place loop leaves `Ticked` of the old array |
| Counters.TickWrapAll | tree.py:243-248 | the in-place loop leaves `TickWrapped` of the old array |
| Counters.InitialCounters | tree.py:222-223 | a fresh array holding the drawn starting counters |
| Counters.Fade1StepCounters | tree.py:205-210 | counters stay in [0, 24]; only the drawn pixel can change beyond a tick, only if it is idle, and only to 24 |
| Counters.Fade2StepCounters | tree.py:243-252 | counters stay in [0, 124]; only a drawn pixel within the background range can be set to 124 |
| Counters.TickWrappedCounters | tree.py:279-284 | Sparkling1 counters stay in [0, 100] |
| Counters.Fade1Factor | tree.py:199-202 | for a lit counter the factor is in (0, 1], and it is 1 exactly at counter 20 |
| Counters.Fade1Sample | tree.py:194-203 | `FuncFade1.get(i)`: dark at counter 0, otherwise the hue scaled by `Fade1Factor`; `Fade1SampleBounds` states its range |
| Counters.Fade1Envelope | tree.py:194-203 | the factor rises strictly from counter 24 to 20 and falls strictly from 20 to 1 |
| Counters.Fade1SampleBounds | tree.py:194-203 | dark exactly at counter 0, which packs to 0; otherwise the hue scaled by a factor in (0, 1] |
| Counters.BreathFactor | tree.py:228-232 | the background factor; `BreathFactorShape` states its shape and range |
| Counters.BreathFactorShape | tree.py:228-232 | the background factor is `|s - 50| / 50`, lies in [0, 1], is 0 only at 50, and is 1 at 0 and at 100 |
| Counters.Fade2Sample | tree.py:225-241 | `FuncFade2.get(i)`; `Fade2Phases` and `Fade2SampleValid` state its three phases and validity |
| Counters.Fade2Phases | tree.py:225-241 | up to 100 the breathing background; 101..119 the background plus the flash; from 120 the flash alone; the flash follows the Fade1 envelope shifted by 100 |
| Counters.Fade2SampleValid | tree.py:225-241 | every Fade2 pixel is non-negative and well-formed |
| Counters.Sparkling1Sample | tree.py:266-277 | `FuncSparkling1.get(i)` with the sparkle draw as a parameter; `SparklingBackground` states both cases |
| Counters.SparklingBackground | tree.py:266-277 | without a sparkle a pixel shows the Fade2 background; with one it shows the full hue |
| Counters.Fade1.constructor | tree.py:190-192 | the hue is `wheel(draw)` and every counter starts at 0 |
| Counters.Fade1.Sample | tree.py:194-203 | dark exactly when the counter is 0; otherwise the hue scaled by the Fade1 factor |
| Counters.Fade1.NextFrame | tree.py:205-210 | the new counters are `Fade1Step` of the old ones, and the class invariant is kept |
| Counters.Fade2.constructor | tree.py:214-223 | the flash hue is `wheel`, the background is `fixcolor * 0.08`, and the counters are the draws |
| Counters.Fade2.Sample | tree.py:225-241 | the three phases of `Fade2Phases` for this pixel's counter; the result is a valid colour |
| Counters.Fade2.NextFrame | tree.py:243-252 | the new counters are `Fade2Step` of the old ones, and the invariant (counters in [0, 124]) is kept |
| Counters.Sparkling1.constructor | tree.py:256-264 | colours as in Fade2; the counters are the draws |
| Counters.Sparkling1.Sample | tree.py:266-277 | a sparkle shows the full hue; the result is a valid colour |
| Counters.Sparkling1.NextFrame | tree.py:279-284 | the new counters are `TickWrapped` of the old ones, and stay in [0, 100] |
| Phases.HueIndex | tree.py:122 | `(state + i) & 255` is `(state + i) mod 256` |
| Phases.RainbowFactor | tree.py:123 | for a sine in [-1, 1] the brightness factor is in [0.2, 1] |
| Phases.RainbowSample | tree.py:121-124 | `FuncRainbow.get(i)`: the wheel colour at `HueIndex` scaled by `RainbowFactor`; `RainbowSampleBounds` states its range |
| Phases.RainbowSampleBounds | tree.py:121-124 | a rainbow pixel is never dark; its channels sum to between 51 and 255 |
| Phases.Rainbow.constructor | tree.py:115-119 | the phase starts at 0, and `wave` and `shift` come from the draws |
| Phases.Rainbow.Sample | tree.py:121-124 | the wheel colour at `(state + i) mod 256`, scaled by the rainbow factor, is never dark; with the phase kept below 256, pixel 0 shows `wheel(state)` |
| Phases.Rainbow.NextFrame | tree.py:126-129 | the phase steps to `(state + 1) mod 256`, and `pos` moves by `shift` |
| Phases.DotSample | tree.py:140-147 | the dot envelope shared by both moving-dot patterns: dark below 0.1, otherwise the hue scaled by the envelope; `Dots1Sample` and `Dots2Sample` state the lit and dark cases |
| Phases.Dots1Sample | tree.py:140-147 | a dot is dark exactly when `sin * brightness < 0.1`; otherwise it is the hue scaled by that value |
| Phases.Dots2Sample | tree.py:160-167 | a dot is dark exactly when `sin < 0.775`; a lit dot is the hue scaled by a factor in [0.1, 1] |
| Phases.MovingDots1.constructor | tree.py:133-138 | the hue, wave and speed-scaled shift come from the draws |
| Phases.MovingDots1.Sample | tree.py:140-147 | `get(i)` on the object: its pixel is `Dots1Sample` of its hue and brightness, dark exactly when `sin * brightness < 0.1`, otherwise the hue scaled by that value |
| Phases.MovingDots1.NextFrame | tree.py:149-150 | the phase moves by `shift` |
| Phases.MovingDots2.constructor | tree.py:154-158 | the hue comes from the draws; the wave makes 1 to 3 cycles along the strip; the speed comes from the draws |
| Phases.MovingDots2.Sample | tree.py:160-167 | `get(i)` on the object: its pixel is `Dots2Sample` of its hue, dark exactly when `sin < 0.775`, otherwise the hue scaled by `4 * sin - 3` |
| Phases.MovingDots2.NextFrame | tree.py:169-170 | the phase moves by `speed` |
| Phases.MoveCombine.constructor | tree.py:174-177 | two fresh parts, the first with brightness 0.2 and speed 0.1; each part's hue is `wheel` of its draw, its wave and speed come from the draws, and its phase starts at 0 |
| Phases.MoveCombine.Sample | tree.py:179-182 | the sum of the two parts' samples, dark exactly when both parts are dark |
| Phases.MoveCombine.NextFrame | tree.py:184-186 | both parts advance |
| Scheduler.PyIndex | tree.py:298-299 | Python's list indexing: a negative index counts from the end, and anything else out of range is `IndexError`; `Configure` states the result |
| Scheduler.Configure | tree.py:297-301 | raises exactly for an action below -7; an action in 0..6 (or -7..-1, counted from the end) fixes that class; no action, or one of 7 or more, leaves the class free; a negative wait becomes 0 |
| Scheduler.Choose | tree.py:304-308 | `_random_func`'s class: the fixed class if there is one, otherwise the drawn one; `FixedKindStays` states the consequence |
| Scheduler.Start | tree.py:311-314 | the state `run` enters its loop with: one pattern, no transition, the scene deadline `t + wait` and the frame deadline `t + 0.04`; `Tree.Run` is specified from it |
| Scheduler.Frame | tree.py:332-358 | one pass of the frame loop after the pixels are pushed; `Waiting`, `TransitionStarts` and `Transitioning` state its cases |
| Scheduler.Frames | tree.py:310-359 | the frames run in order; `FramesAppend` states that runs compose, and `Tree.Run` is proved against it |
| Scheduler.Pace | tree.py:352-358 | the sleep is `max(t_next - t, 0.01)`, so at least 10 ms; the next deadline is the wake-up time plus 40 ms |
| Scheduler.PaceOnTime | tree.py:353-355 | on time, the deadline moves by exactly 40 ms |
| Scheduler.PaceStall | tree.py:353-358 | after a stall the deadline restarts 50 ms from now, not in the past |
| Scheduler.FramesKeepInv | tree.py:332-345 | the two slots never hold the same instance, and `mix < 1` throughout a transition |
| Scheduler.Waiting | tree.py:332-337 | before `t_next_scene` passes no transition starts, and `func1` advances once per frame |
| Scheduler.TransitionStarts | tree.py:334-337 | once the deadline passes, a new instance enters `func2` unadvanced, `mix` becomes 0, and `func1` advances |
| Scheduler.Transitioning | tree.py:332-345 | a transition lasts exactly 50 frames with `mix = n/50`; at the end the incoming pattern becomes `func1` and the next deadline is set from that frame's clock |
| Scheduler.FixedKindStays | tree.py:304-308 | with `--action` set, every pattern ever scheduled is of the fixed class |
| Scheduler.RainbowScenario | tree.py:310-345 | with `-a 0 -w 0`, 51 frames after the clock moves a new Rainbow instance has fully replaced the first |
| Scheduler.Blend | tree.py:320-325 | the cross-fade of the two samples; `BlendInterpolates` and `CrossFadeEnds` state its value |
| Scheduler.BlendInterpolates | tree.py:320-325 | the cross-fade is `c1 * (1 - mix) + c2 * mix` channel by channel |
| Scheduler.CrossFadeEnds | tree.py:320-327 | at `mix` 0 a pixel shows `func1` alone; at `mix` 1 it shows `func2` alone |
| Scheduler.RenderPixel | tree.py:319-327 | the value sent for a pixel is `Pack` of the cross-fade |
| Scheduler.Tree.constructor | tree.py:292-294 | both slots are empty and `mix` is 0 |
| Scheduler.Tree.RandomFunc | tree.py:304-308 | a new instance of the fixed class, or of the drawn class when none is fixed |
| Scheduler.Tree.Step | tree.py:332-358 | one loop pass moves the tree and the deadlines to `Frame` of the old state, and sleeps as `Pace` says |
| Scheduler.Tree.Run | tree.py:310-359 | after the frames the tree is `Frames` of the start state; every sleep is the `Pace` sleep of its frame and at least 10 ms |

## Left out

- The LED hardware is not modelled: `PixelStrip` setup, `setPixelColor` and `show`, and every `LED_*` constant
  except `LED_COUNT`. `RenderPixel` models the colour computed for one pixel; the loop over all 100 pixels only
  pushes those values to the strip.
- Argument parsing is not modelled. The `-v` announcement, the `--fps` counter and its prints, and the `--clear` pass
  after the loop are I/O.
- The `OverflowError` handler is not modelled. It only prints, and packing non-negative channels cut at 255 cannot
  overflow.
- `math.sin` is not modelled. Each `Sample` takes the sine value as a parameter, and the generator keeps its phase
  (`pos` or `state`) and `wave` as it updates them.
- `random` is not modelled, and neither is `random.seed`. Every draw is a parameter.
- `time.time` and `time.sleep` are not modelled: the clock readings are inputs and the sleeps are outputs.
  `KeyboardInterrupt` is modelled by running a finite list of frames.
- IEEE floating point is not modelled; channels and factors are exact reals. Fifty float additions of 0.02 also first
  reach 1 on the fiftieth, so the integer count of mix steps gives the same transition length.
- `LightFunc.get` and `LightFuncN.get` return an empty colour, and `LightFunc.next_frame` increments a counter. These
  base classes are never scheduled. Their one shared loop, `LightFuncN.next_frame`, is `Counters.TickAll`.
- Scheduler.Tree: the slots hold `Pattern` records (class, creation order, frames advanced) rather than the generator
  objects. How a generator changes from frame to frame is proved on its own class in `Counters` and `Phases`.
- Colors.Pack: requires non-negative channels. Every colour the patterns produce is non-negative, because factors
  are cut at 0 and the palettes are non-negative. For a negative channel Python's `round` and `|` would produce a
  negative integer, and that case is not modelled.
- Counters.Sparkling1.Sample: states validity and the sparkle case; the background case is stated by
  `Counters.SparklingBackground`.
- Phases.MovingDots1.NextFrame, Phases.MovingDots2.NextFrame and Phases.MoveCombine.NextFrame update real phases
  that only feed `math.sin`. Their contracts state the update, and there is nothing further to prove about it.
