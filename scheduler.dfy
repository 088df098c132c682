/**
 * The scene scheduler and frame loop of tree.py (`Tree.__init__` and
 * `Tree.run`). Patterns are abstract here: a pattern instance is its class,
 * the order in which it was created and the number of frames it has been
 * advanced. `mix` is kept as the number of 0.02 steps taken, so the source's
 * `mix` is `mix / 50`. Clock readings and random draws are inputs of each
 * frame; the sleep is an output.
 */
module Scheduler {
  import opened Wrappers
  import opened Colors

  /** The classes of `funclist`, in order. */
  datatype Kind = Rainbow | MovingDots1 | MovingDots2 | MoveCombine | Fade1 | Fade2 | Sparkling1

  const FuncList: seq<Kind> := [Rainbow, MovingDots1, MovingDots2, MoveCombine, Fade1, Fade2, Sparkling1]

  datatype ConfigError = IndexError

  /** Python's `xs[k]`: a negative index counts from the end, anything else outside the list raises. */
  function PyIndex<T>(xs: seq<T>, k: int): Result<T, ConfigError>
  {
    if 0 <= k < |xs| then Success(xs[k])
    else if -|xs| <= k < 0 then Success(xs[|xs| + k])
    else Failure(IndexError)
  }

  /** `-a` / `--action` and `-w` / `--wait` as `Tree.__init__` keeps them. */
  datatype Config = Config(fixed: Option<Kind>, wait: nat)

  /**
   * `Tree.__init__`: an action below `len(funclist)` fixes the pattern class,
   * and a negative wait becomes 0. A negative action passes the guard and is
   * used as a Python index from the end; below -7 the lookup raises.
   */
  function Configure(action: Option<int>, wait: int): (r: Result<Config, ConfigError>)
    ensures r.Failure? <==> action.Some? && action.value < -|FuncList|
    ensures r.Success? ==> r.value.wait == (if wait < 0 then 0 else wait)
    ensures r.Success? ==> (r.value.fixed.None? <==> action.None? || action.value >= |FuncList|)
    ensures action.Some? && 0 <= action.value < |FuncList| ==> r == Success(Config(Some(FuncList[action.value]), r.value.wait))
    ensures action.Some? && -|FuncList| <= action.value < 0 ==> r.Success? && r.value.fixed == Some(FuncList[|FuncList| + action.value])
  {
    var w: nat := if wait < 0 then 0 else wait;
    if action.Some? && action.value < |FuncList| then
      match PyIndex(FuncList, action.value)
      case Failure(e) => Failure(e)
      case Success(k) => Success(Config(Some(k), w))
    else
      Success(Config(None, w))
  }

  /** A pattern instance, known by its class, its creation order and how often `next_frame` ran on it. */
  datatype Pattern = Pattern(kind: Kind, serial: nat, frames: nat)

  function Advance(p: Pattern): Pattern
  {
    p.(frames := p.frames + 1)
  }

  function AdvancedBy(p: Pattern, n: nat): Pattern
  {
    p.(frames := p.frames + n)
  }

  /** The number of 0.02 steps after which `mix >= 1`. */
  const MixSteps: nat := 50

  /**
   * The loop state of `run`: `func1`, `func2` and `mix` of the tree,
   * the locals `t_next_scene` and `t_next`, and how many patterns have been
   * created so far.
   */
  datatype Scene = Scene(func1: Pattern, func2: Option<Pattern>, mix: nat, tNextScene: real, tNext: real, created: nat)

  /**
   * What one frame reads from the outside: the clock read before the scene
   * check, the clock read before pacing, and the class `random.choice` would
   * pick.
   */
  datatype FrameInput = FrameInput(now: real, paceNow: real, draw: Kind)

  /** `_random_func()`: the fixed class if there is one, otherwise the drawn one. */
  function Choose(cfg: Config, draw: Kind): Kind
  {
    if cfg.fixed.Some? then cfg.fixed.value else draw
  }

  /** The state `run` enters its loop with, at clock reading `t0`. */
  function Start(cfg: Config, t0: real, draw: Kind): Scene
  {
    Scene(Pattern(Choose(cfg, draw), 0, 0), None, 0, t0 + cfg.wait as real, t0 + 0.04, 1)
  }

  datatype Pacing = Pacing(sleep: real, tNext: real)

  /**
   * The pacing step: sleep until `t_next` if that is at least 10 ms away and
   * move it on by 40 ms; otherwise sleep 10 ms and restart from now + 50 ms.
   * Either way the sleep is at least 10 ms, and the new deadline is exactly
   * one 40 ms period after the moment the sleep ends.
   */
  function Pace(tNext: real, t: real): (p: Pacing)
    ensures p.sleep >= 0.01
    ensures p.sleep == (if tNext - t >= 0.01 then tNext - t else 0.01)
    ensures p.tNext == t + p.sleep + 0.04
  {
    var w := tNext - t;
    if w >= 0.01 then Pacing(w, tNext + 0.04) else Pacing(0.01, t + 0.05)
  }

  /** On time, the 40 ms cadence is kept. */
  lemma PaceOnTime(tNext: real, t: real)
    requires tNext - t >= 0.01
    ensures Pace(tNext, t) == Pacing(tNext - t, tNext + 0.04)
  {
  }

  /** After a stall of 200 ms or more the deadline restarts from now instead of queueing late frames. */
  lemma PaceStall(tNext: real, t: real)
    requires t >= tNext + 0.2
    ensures Pace(tNext, t) == Pacing(0.01, t + 0.05)
    ensures Pace(tNext, t).tNext > t
  {
  }

  /** One pass of the `while True` loop of `run`, after the pixels are pushed. */
  function Frame(cfg: Config, s: Scene, inp: FrameInput): Scene
  {
    var advanced := Advance(s.func1);
    var next :=
      if s.func2.None? then
        if s.tNextScene < inp.now then
          s.(func1 := advanced, func2 := Some(Pattern(Choose(cfg, inp.draw), s.created, 0)),
             mix := 0, created := s.created + 1)
        else
          s.(func1 := advanced)
      else if s.mix + 1 >= MixSteps then
        s.(func1 := s.func2.value, func2 := None, mix := s.mix + 1,
           tNextScene := inp.now + cfg.wait as real)
      else
        s.(func1 := advanced, func2 := Some(Advance(s.func2.value)), mix := s.mix + 1);
    next.(tNext := Pace(s.tNext, inp.paceNow).tNext)
  }

  /** The state after running the frames `xs` in order. */
  function Frames(cfg: Config, s: Scene, xs: seq<FrameInput>): Scene
  {
    if xs == [] then s else Frame(cfg, Frames(cfg, s, xs[..|xs| - 1]), xs[|xs| - 1])
  }

  lemma {:induction false} FramesAppend(cfg: Config, s: Scene, xs: seq<FrameInput>, ys: seq<FrameInput>)
    ensures Frames(cfg, s, xs + ys) == Frames(cfg, Frames(cfg, s, xs), ys)
    decreases |ys|
  {
    if ys != [] {
      assert (xs + ys)[..|xs + ys| - 1] == xs + ys[..|ys| - 1];
      assert (xs + ys)[|xs + ys| - 1] == ys[|ys| - 1];
      FramesAppend(cfg, s, xs, ys[..|ys| - 1]);
    } else {
      assert xs + ys == xs;
    }
  }

  /**
   * The scheduler invariant: every instance in a slot was created by the
   * scheduler, the two slots never hold the same instance, and while a
   * transition runs `mix` is below 1.
   */
  ghost predicate Inv(s: Scene)
  {
    && s.func1.serial < s.created
    && (s.func2.Some? ==> s.func1.serial < s.func2.value.serial < s.created && s.mix < MixSteps)
  }

  lemma {:induction false} FramesKeepInv(cfg: Config, s: Scene, xs: seq<FrameInput>)
    requires Inv(s)
    ensures Inv(Frames(cfg, s, xs))
    ensures Frames(cfg, s, xs).func2.Some? ==> Frames(cfg, s, xs).func1 != Frames(cfg, s, xs).func2.value
  {
    if xs != [] {
      FramesKeepInv(cfg, s, xs[..|xs| - 1]);
    }
  }

  /** While `t_next_scene` has not passed, no transition starts, and `func1` is advanced once per frame. */
  lemma {:induction false} Waiting(cfg: Config, s: Scene, xs: seq<FrameInput>)
    requires s.func2.None?
    requires forall j :: 0 <= j < |xs| ==> xs[j].now <= s.tNextScene
    ensures Frames(cfg, s, xs).func2.None?
    ensures Frames(cfg, s, xs).func1 == AdvancedBy(s.func1, |xs|)
    ensures Frames(cfg, s, xs).tNextScene == s.tNextScene
  {
    if xs != [] {
      Waiting(cfg, s, xs[..|xs| - 1]);
    }
  }

  /**
   * Once `t_next_scene` has passed, the next frame creates the incoming
   * pattern with `mix` reset to 0; the new instance is not advanced in the
   * frame that creates it.
   */
  lemma TransitionStarts(cfg: Config, s: Scene, inp: FrameInput)
    requires s.func2.None? && s.tNextScene < inp.now
    ensures Frame(cfg, s, inp).func2 == Some(Pattern(Choose(cfg, inp.draw), s.created, 0))
    ensures Frame(cfg, s, inp).mix == 0
    ensures Frame(cfg, s, inp).func1 == Advance(s.func1)
  {
  }

  /**
   * A transition takes exactly 50 frames. Before that, each frame adds one
   * 0.02 step to `mix` and advances both patterns; on the 50th the incoming
   * pattern becomes `func1` without being advanced that frame, the slot
   * empties and the deadline becomes that frame's clock plus the wait.
   */
  lemma {:induction false} Transitioning(cfg: Config, s: Scene, xs: seq<FrameInput>)
    requires s.func2.Some? && s.mix < MixSteps && s.mix + |xs| <= MixSteps
    ensures var r := Frames(cfg, s, xs);
      if s.mix + |xs| < MixSteps then
        && r.func2 == Some(AdvancedBy(s.func2.value, |xs|))
        && r.func1 == AdvancedBy(s.func1, |xs|)
        && r.mix == s.mix + |xs|
      else
        && |xs| > 0
        && r.func2.None?
        && r.func1 == AdvancedBy(s.func2.value, |xs| - 1)
        && r.tNextScene == xs[|xs| - 1].now + cfg.wait as real
  {
    if xs != [] {
      Transitioning(cfg, s, xs[..|xs| - 1]);
    }
  }

  /** With a fixed pattern class, every pattern the scheduler ever holds is of that class. */
  lemma {:induction false} FixedKindStays(cfg: Config, s: Scene, xs: seq<FrameInput>)
    requires cfg.fixed.Some?
    requires s.func1.kind == cfg.fixed.value
    requires s.func2.Some? ==> s.func2.value.kind == cfg.fixed.value
    ensures Frames(cfg, s, xs).func1.kind == cfg.fixed.value
    ensures Frames(cfg, s, xs).func2.Some? ==> Frames(cfg, s, xs).func2.value.kind == cfg.fixed.value
  {
    if xs != [] {
      FixedKindStays(cfg, s, xs[..|xs| - 1]);
    }
  }

  /**
   * `-a 0 -w 0`: once the clock has moved past the start, 51 frames later the
   * scheduler has completed a transition to a new Rainbow instance.
   */
  lemma RainbowScenario(t0: real, first: Kind, xs: seq<FrameInput>)
    requires |xs| == MixSteps + 1 && xs[0].now > t0
    ensures Configure(Some(0), 0).Success?
    ensures var cfg := Configure(Some(0), 0).value;
      var s0 := Start(cfg, t0, first);
      var r := Frames(cfg, s0, xs);
      && s0.func1.kind == Rainbow
      && r.func1.kind == Rainbow && r.func1.serial == 1 && r.func2.None?
  {
    var cfg := Configure(Some(0), 0).value;
    var s0 := Start(cfg, t0, first);
    assert xs == [xs[0]] + xs[1..];
    FramesAppend(cfg, s0, [xs[0]], xs[1..]);
    assert [xs[0]][..0] == [];
    var s1 := Frames(cfg, s0, [xs[0]]);
    TransitionStarts(cfg, s0, xs[0]);
    Transitioning(cfg, s1, xs[1..]);
  }

  // ---------------------------------------------------------------------------
  // Rendering one pixel

  /**
   * The colour sent for one pixel: `func1`'s sample alone, or during a
   * transition `func1`'s sample times `1 - mix` plus `func2`'s times `mix`.
   */
  function Blend(c1: ColorValue, c2: Option<ColorValue>, mix: nat): ColorValue
  {
    if c2.None? then c1
    else Add(Scale(c1, 1.0 - mix as real / MixSteps as real), Scale(c2.value, mix as real / MixSteps as real))
  }

  /** For `mix` in [0, 1] the cross-fade is the linear interpolation of the two samples. */
  lemma BlendInterpolates(c1: ColorValue, c2: ColorValue, mix: nat)
    requires WellFormed(c1) && WellFormed(c2) && mix <= MixSteps
    ensures var m := mix as real / MixSteps as real;
      var r := Blend(c1, Some(c2), mix);
      && r.red == c1.red * (1.0 - m) + c2.red * m
      && r.green == c1.green * (1.0 - m) + c2.green * m
      && r.blue == c1.blue * (1.0 - m) + c2.blue * m
  {
    var m := mix as real / MixSteps as real;
    AddSums(Scale(c1, 1.0 - m), Scale(c2, m));
  }

  /** At `mix == 0` a pixel shows `func1` alone; at `mix == 1` it shows `func2` alone. */
  lemma CrossFadeEnds(c1: ColorValue, c2: ColorValue)
    requires NonNegative(c1) && WellFormed(c1) && NonNegative(c2) && WellFormed(c2)
    ensures Pack(Blend(c1, Some(c2), 0)) == Pack(c1)
    ensures Pack(Blend(c1, Some(c2), MixSteps)) == Pack(c2)
  {
    PackChannelsLayout(0, 0, 0);
    RoundInteger(0);
    var start := Blend(c1, Some(c2), 0);
    if c1.black {
      assert start.red == 0.0 && start.green == 0.0 && start.blue == 0.0;
    } else {
      assert start.red == c1.red && start.green == c1.green && start.blue == c1.blue;
    }
    var end := Blend(c1, Some(c2), MixSteps);
    if c2.black {
      assert end.red == 0.0 && end.green == 0.0 && end.blue == 0.0;
    } else {
      assert end.red == c2.red && end.green == c2.green && end.blue == c2.blue;
    }
  }

  /** The body of the pixel loop of `run`: copy, scale and merge, then `get()`. */
  method RenderPixel(c1: ColorValue, c2: Option<ColorValue>, mix: nat) returns (v: nat)
    requires NonNegative(c1) && (c2.Some? ==> NonNegative(c2.value))
    ensures v == Pack(Blend(c1, c2, mix))
  {
    var m := mix as real / MixSteps as real;
    var c := new Color.Copy(c1);
    if c2.Some? {
      c.ScaleAssign(1.0 - m);
      var other := new Color.Copy(c2.value);
      other.ScaleAssign(m);
      assert other.Value() == Scale(c2.value, m);
      c.AddAssign(other);
    }
    assert c.Value() == Blend(c1, c2, mix);
    v := c.Get();
  }

  // ---------------------------------------------------------------------------
  // The tree

  /** `Tree`: the pattern slots and `mix` it keeps across frames. */
  class Tree {
    const config: Config
    var func1: Option<Pattern>
    var func2: Option<Pattern>
    var mix: nat
    var created: nat

    /** `Tree(arguments)` once `Configure` has accepted the arguments. */
    constructor (config: Config)
      ensures this.config == config
      ensures func1 == None && func2 == None && mix == 0 && created == 0
    {
      this.config := config;
      func1, func2, mix, created := None, None, 0, 0;
    }

    /** `_random_func()`: a new instance of the fixed or drawn class. */
    method RandomFunc(draw: Kind) returns (p: Pattern)
      modifies this
      ensures p == Pattern(Choose(config, draw), old(created), 0)
      ensures created == old(created) + 1
      ensures func1 == old(func1) && func2 == old(func2) && mix == old(mix)
    {
      var choice := Choose(config, draw);
      p := Pattern(choice, created, 0);
      created := created + 1;
    }

    /**
     * One pass of the loop of `run`: advance `func1`, start, step or finish
     * the transition, then pace. `tNextScene` and `tNext` are the locals of
     * `run`; `sleep` is the duration passed to `time.sleep`.
     */
    method Step(tNextScene: real, tNext: real, inp: FrameInput) returns (tNextScene': real, tNext': real, sleep: real)
      requires func1.Some?
      modifies this
      ensures func1.Some?
      ensures Scene(func1.value, func2, mix, tNextScene', tNext', created)
           == Frame(config, Scene(old(func1).value, old(func2), old(mix), tNextScene, tNext, old(created)), inp)
      ensures sleep == Pace(tNext, inp.paceNow).sleep
    {
      func1 := Some(Advance(func1.value));
      tNextScene' := tNextScene;
      var t := inp.now;
      if func2.None? {
        if tNextScene < t {
          var q := RandomFunc(inp.draw);
          func2 := Some(q);
          mix := 0;
        }
      } else {
        mix := mix + 1;
        if mix >= MixSteps {
          func1 := func2;
          func2 := None;
          tNextScene' := t + config.wait as real;
        } else {
          func2 := Some(Advance(func2.value));
        }
      }
      t := inp.paceNow;
      sleep := tNext - t;
      if sleep >= 0.01 {
        tNext' := tNext + 0.04;
      } else {
        sleep := 0.01;
        tNext' := t + 0.05;
      }
    }

    /**
     * `run()`, for as many frames as `frames` holds (the interrupt ends the
     * loop between frames). `sleeps` are the durations passed to
     * `time.sleep`.
     */
    method Run(t0: real, first: Kind, frames: seq<FrameInput>) returns (sleeps: seq<real>)
      requires func1.None? && func2.None? && mix == 0 && created == 0
      modifies this
      ensures var r := Frames(config, Start(config, t0, first), frames);
        func1 == Some(r.func1) && func2 == r.func2 && mix == r.mix && created == r.created
      ensures |sleeps| == |frames|
      ensures forall k :: 0 <= k < |frames| ==>
        sleeps[k] == Pace(Frames(config, Start(config, t0, first), frames[..k]).tNext, frames[k].paceNow).sleep
      ensures forall k :: 0 <= k < |frames| ==> sleeps[k] >= 0.01
    {
      var p := RandomFunc(first);
      func1 := Some(p);
      var tNextScene := t0 + config.wait as real;
      var tNext := t0 + 0.04;
      ghost var s0 := Start(config, t0, first);
      sleeps := [];
      var k := 0;
      while k < |frames|
        invariant 0 <= k <= |frames|
        invariant func1.Some?
        invariant Scene(func1.value, func2, mix, tNextScene, tNext, created) == Frames(config, s0, frames[..k])
        invariant |sleeps| == k
        invariant forall j :: 0 <= j < k ==> sleeps[j] == Pace(Frames(config, s0, frames[..j]).tNext, frames[j].paceNow).sleep
      {
        ghost var before := Frames(config, s0, frames[..k]);
        assert frames[..k + 1][..k] == frames[..k];
        assert Frames(config, s0, frames[..k + 1]) == Frame(config, before, frames[k]);
        var w;
        tNextScene, tNext, w := Step(tNextScene, tNext, frames[k]);
        assert w == Pace(before.tNext, frames[k].paceNow).sleep;
        sleeps := sleeps + [w];
        k := k + 1;
      }
      assert frames[..|frames|] == frames;
    }
  }
}
