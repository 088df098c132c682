/**
 * The colour accumulator `Color` of tree.py: three channels and a `black`
 * flag meaning "nothing contributed yet". Channels are exact reals, so the
 * float scalings of the source become exact arithmetic.
 *
 * `ColorValue` and the functions over it are the specification; the class
 * `Color` is the object the source mutates in place, and each of its methods
 * is proved against those functions.
 */
module Colors {
  import opened Bits

  datatype ColorValue = ColorValue(red: real, green: real, blue: real, black: bool)

  /** `Color(red, green, blue)`: the flag is set only when all three channels are zero. */
  function MakeColor(red: real, green: real, blue: real): ColorValue
  {
    ColorValue(red, green, blue, red == 0.0 && green == 0.0 && blue == 0.0)
  }

  /** `Color()`, the empty colour. */
  const Black: ColorValue := MakeColor(0.0, 0.0, 0.0)

  /** The flag only ever sits on zero channels. */
  predicate WellFormed(c: ColorValue)
  {
    c.black ==> c.red == 0.0 && c.green == 0.0 && c.blue == 0.0
  }

  predicate NonNegative(c: ColorValue)
  {
    c.red >= 0.0 && c.green >= 0.0 && c.blue >= 0.0
  }

  predicate InByteRange(c: ColorValue)
  {
    NonNegative(c) && c.red <= 255.0 && c.green <= 255.0 && c.blue <= 255.0
  }

  /** `c += other`: an empty right-hand side is a no-op, an empty left-hand side adopts it. */
  function Add(c: ColorValue, other: ColorValue): (r: ColorValue)
    ensures r.black == (c.black && other.black)
    ensures NonNegative(c) && NonNegative(other) ==> NonNegative(r)
    ensures WellFormed(c) && WellFormed(other) ==> WellFormed(r)
  {
    if other.black then c
    else if !c.black then
      ColorValue(c.red + other.red, c.green + other.green, c.blue + other.blue, false)
    else
      ColorValue(other.red, other.green, other.blue, false)
  }

  /** `c *= f`: an empty colour stays empty and a negative factor counts as zero. */
  function Scale(c: ColorValue, f: real): (r: ColorValue)
    ensures r.black == c.black
    ensures NonNegative(c) ==> NonNegative(r)
    ensures WellFormed(c) ==> WellFormed(r)
  {
    if c.black then c
    else
      var g := if f < 0.0 then 0.0 else f;
      ColorValue(c.red * g, c.green * g, c.blue * g, c.black)
  }

  function ClampChannel(x: real): real
  {
    if x > 255.0 then 255.0 else x
  }

  /** What `get` leaves in the fields: every channel above 255 is cut to 255. */
  function ClampTop(c: ColorValue): (r: ColorValue)
    ensures !c.black ==> r.red <= 255.0 && r.green <= 255.0 && r.blue <= 255.0
    ensures NonNegative(c) && WellFormed(c) ==> InByteRange(r)
    ensures r.black == c.black
  {
    if c.black then c
    else ColorValue(ClampChannel(c.red), ClampChannel(c.green), ClampChannel(c.blue), c.black)
  }

  /** Python's `round` on a number: the nearest integer, ties to the even one. */
  function RoundHalfEven(x: real): (n: int)
    ensures -0.5 <= n as real - x <= 0.5
    ensures (n as real - x == 0.5 || x - n as real == 0.5) ==> n % 2 == 0
  {
    var f := x.Floor;
    var d := x - f as real;
    if d < 0.5 then f
    else if d > 0.5 then f + 1
    else if f % 2 == 0 then f else f + 1
  }

  /** One channel as `get` transmits it: clamped at 255, then rounded. */
  function ChannelByte(x: real): (n: nat)
    requires x >= 0.0
    ensures n < 256
    ensures x <= 255.0 ==> -0.5 <= n as real - x <= 0.5
    ensures x >= 255.0 ==> n == 255
  {
    RoundHalfEven(ClampChannel(x))
  }

  /** `(red << 8) | (green << 16) | blue` */
  function PackChannels(red: nat, green: nat, blue: nat): nat
    requires red < 256 && green < 256 && blue < 256
  {
    BitOr(BitOr(ShiftLeft(red, 8), ShiftLeft(green, 16)), blue)
  }

  /** `(v >> shift) & 255` */
  function ByteAt(v: nat, shift: nat): nat
  {
    BitAnd(ShiftRight(v, shift), 255)
  }

  /** The value `get` returns. */
  function Pack(c: ColorValue): nat
    requires NonNegative(c)
  {
    if c.black then 0
    else PackChannels(ChannelByte(c.red), ChannelByte(c.green), ChannelByte(c.blue))
  }

  /** The packing puts red in bits 8-15, green in bits 16-23 and blue in bits 0-7. */
  lemma PackChannelsLayout(red: nat, green: nat, blue: nat)
    requires red < 256 && green < 256 && blue < 256
    ensures PackChannels(red, green, blue) == red * 0x100 + green * 0x1_0000 + blue
    ensures PackChannels(red, green, blue) < 0x100_0000
    ensures ByteAt(PackChannels(red, green, blue), 8) == red
    ensures ByteAt(PackChannels(red, green, blue), 16) == green
    ensures ByteAt(PackChannels(red, green, blue), 0) == blue
  {
    PackChannelsSum(red, green, blue);
    ByteLayout(red, green, blue);
  }

  /** The three fields do not overlap, so the or-ing adds them. */
  lemma PackChannelsSum(red: nat, green: nat, blue: nat)
    requires red < 256 && green < 256 && blue < 256
    ensures PackChannels(red, green, blue) == red * 0x100 + green * 0x1_0000 + blue
  {
    assert Pow2(8) == 0x100 && Pow2(16) == 0x1_0000;
    BitOrDisjoint(red * 0x100, green, 16);
    var high := red + green * 0x100;
    assert red * 0x100 + green * 0x1_0000 == high * Pow2(8);
    BitOrDisjoint(blue, high, 8);
    BitOrCommutes(blue, high * Pow2(8));
  }

  /** Shifting and masking a sum of fields reads back each field. */
  lemma ByteLayout(red: nat, green: nat, blue: nat)
    requires red < 256 && green < 256 && blue < 256
    ensures var v := red * 0x100 + green * 0x1_0000 + blue;
      && v < 0x100_0000
      && ByteAt(v, 8) == red && ByteAt(v, 16) == green && ByteAt(v, 0) == blue
  {
    assert Pow2(8) == 0x100 && Pow2(16) == 0x1_0000 && Pow2(0) == 1;
    var high := red + green * 0x100;
    var v := high * 0x100 + blue;
    assert v == red * 0x100 + green * 0x1_0000 + blue;
    ModUnique(v, 0x100, high, blue);
    ModUnique(high, 0x100, green, red);
    ModUnique(v, 0x1_0000, green, red * 0x100 + blue);
    ModUnique(green, 0x100, 0, green);
    BitAndLowMask(v / 0x100, 8);
    BitAndLowMask(v / 0x1_0000, 8);
    BitAndLowMask(v, 8);
  }

  /**
   * Packing is well defined and can be undone: the three bytes of the result
   * are the clamped, rounded channels, and an empty colour packs to 0.
   */
  lemma PackRoundTrip(c: ColorValue)
    requires NonNegative(c)
    ensures Pack(c) < 0x100_0000
    ensures c.black ==> Pack(c) == 0
    ensures !c.black ==> ByteAt(Pack(c), 8) == ChannelByte(c.red)
    ensures !c.black ==> ByteAt(Pack(c), 16) == ChannelByte(c.green)
    ensures !c.black ==> ByteAt(Pack(c), 0) == ChannelByte(c.blue)
  {
    if !c.black {
      PackChannelsLayout(ChannelByte(c.red), ChannelByte(c.green), ChannelByte(c.blue));
    }
  }

  lemma RoundInteger(n: int)
    ensures RoundHalfEven(n as real) == n
  {
  }

  /** On integer channels the bytes read back are the channels themselves, cut at 255; all zero packs to 0. */
  lemma PackIntegerChannels(red: nat, green: nat, blue: nat)
    ensures var v := Pack(MakeColor(red as real, green as real, blue as real));
      && v < 0x100_0000
      && ByteAt(v, 8) == (if red > 255 then 255 else red)
      && ByteAt(v, 16) == (if green > 255 then 255 else green)
      && ByteAt(v, 0) == (if blue > 255 then 255 else blue)
  {
    var c := MakeColor(red as real, green as real, blue as real);
    PackRoundTrip(c);
    if c.black {
      PackChannelsLayout(0, 0, 0);
    }
    RoundInteger(if red > 255 then 255 else red);
    RoundInteger(if green > 255 then 255 else green);
    RoundInteger(if blue > 255 then 255 else blue);
  }

  /** `get` twice returns the same value: the clamp it leaves behind changes nothing. */
  lemma GetIdempotent(c: ColorValue)
    requires NonNegative(c)
    ensures ClampTop(ClampTop(c)) == ClampTop(c)
    ensures Pack(ClampTop(c)) == Pack(c)
  {
  }

  /** The empty colour is an identity on both sides of `+=`. */
  lemma AddEmpty(c: ColorValue)
    requires WellFormed(c)
    ensures Add(c, Black) == c
    ensures Add(Black, c) == c
  {
  }

  /** `+=` is channel-wise addition in which the empty colour counts as zero. */
  lemma AddSums(c: ColorValue, other: ColorValue)
    requires WellFormed(c) && WellFormed(other)
    ensures WellFormed(Add(c, other))
    ensures Add(c, other).red == c.red + other.red
    ensures Add(c, other).green == c.green + other.green
    ensures Add(c, other).blue == c.blue + other.blue
  {
  }

  /** A negative factor behaves exactly like zero, and scaling by one changes nothing. */
  lemma ScaleFactors(c: ColorValue, f: real)
    ensures f < 0.0 ==> Scale(c, f) == Scale(c, 0.0)
    ensures Scale(c, 1.0) == c
  {
  }

  /** A colour scaled by zero or less packs to 0, just as the empty colour does. */
  lemma ScaleToNothing(c: ColorValue, f: real)
    requires NonNegative(c) && f <= 0.0
    ensures Pack(Scale(c, f)) == 0
  {
    var r := Scale(c, f);
    if !r.black {
      RoundInteger(0);
      assert ChannelByte(r.red) == 0 && ChannelByte(r.green) == 0 && ChannelByte(r.blue) == 0;
      PackChannelsLayout(0, 0, 0);
    }
  }

  /** The mutable colour object of tree.py. */
  class Color {
    var red: real
    var green: real
    var blue: real
    var black: bool

    function Value(): ColorValue
      reads this
    {
      ColorValue(red, green, blue, black)
    }

    /** `Color(red, green, blue)` */
    constructor (red: real, green: real, blue: real)
      ensures Value() == MakeColor(red, green, blue)
    {
      this.red := red;
      this.green := green;
      this.blue := blue;
      this.black := red == 0.0 && green == 0.0 && blue == 0.0;
    }

    /** `copy.copy(c)`: a fresh object holding the same channels and flag. */
    constructor Copy(c: ColorValue)
      ensures Value() == c
    {
      red, green, blue, black := c.red, c.green, c.blue, c.black;
    }

    /** `self += other`; `other` may be this very object. */
    method AddAssign(other: Color)
      modifies this
      ensures Value() == Add(old(Value()), old(other.Value()))
    {
      if other.black {
        return;
      }
      if !black {
        red := red + other.red;
        green := green + other.green;
        blue := blue + other.blue;
      } else {
        black := false;
        red := other.red;
        green := other.green;
        blue := other.blue;
      }
    }

    /** `self *= f` */
    method ScaleAssign(f: real)
      modifies this
      ensures Value() == Scale(old(Value()), f)
    {
      if black {
        return;
      }
      var g := f;
      if g < 0.0 {
        g := 0.0;
      }
      red := red * g;
      green := green * g;
      blue := blue * g;
    }

    /** `get()`: clamps the fields in place, then packs them. */
    method Get() returns (v: nat)
      requires NonNegative(Value())
      modifies this
      ensures Value() == ClampTop(old(Value()))
      ensures v == Pack(old(Value()))
    {
      if black {
        return 0;
      }
      if red > 255.0 {
        red := 255.0;
      }
      if green > 255.0 {
        green := 255.0;
      }
      if blue > 255.0 {
        blue := 255.0;
      }
      v := PackChannels(RoundHalfEven(red), RoundHalfEven(green), RoundHalfEven(blue));
    }
  }
}
