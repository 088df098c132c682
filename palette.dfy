/** The two palette functions of tree.py: the hue wheel and the small fixed table. */
module Palette {
  import opened Colors

  /** `wheel(pos)`: three 85-wide linear segments green -> red -> blue -> green. */
  function Wheel(pos: int): (c: ColorValue)
    ensures WellFormed(c)
    ensures 0 <= pos < 256 ==> InByteRange(c) && !c.black
    ensures 0 <= pos < 256 ==> c.red + c.green + c.blue == 255.0
  {
    if pos < 85 then
      MakeColor((pos * 3) as real, (255 - pos * 3) as real, 0.0)
    else if pos < 170 then
      var q := pos - 85;
      MakeColor((255 - q * 3) as real, 0.0, (q * 3) as real)
    else
      var q := pos - 170;
      MakeColor(0.0, (q * 3) as real, (255 - q * 3) as real)
  }

  /** `fixcolor(pos)`: six listed colours, white for every other index. */
  function Fixcolor(pos: int): (c: ColorValue)
    ensures WellFormed(c) && InByteRange(c) && !c.black
    ensures c.red in {0.0, 128.0, 255.0} && c.green in {0.0, 128.0, 255.0} && c.blue in {0.0, 128.0, 255.0}
  {
    if pos == 0 then MakeColor(255.0, 0.0, 0.0)
    else if pos == 1 then MakeColor(0.0, 255.0, 0.0)
    else if pos == 2 then MakeColor(0.0, 0.0, 255.0)
    else if pos == 3 then MakeColor(128.0, 128.0, 0.0)
    else if pos == 4 then MakeColor(0.0, 128.0, 128.0)
    else if pos == 5 then MakeColor(128.0, 0.0, 128.0)
    else MakeColor(255.0, 255.0, 255.0)
  }

  /** The segment boundaries of the wheel; the cycle closes at 255 where it began. */
  lemma WheelBreakpoints()
    ensures Wheel(0) == MakeColor(0.0, 255.0, 0.0)
    ensures Wheel(85) == MakeColor(255.0, 0.0, 0.0)
    ensures Wheel(170) == MakeColor(0.0, 0.0, 255.0)
    ensures Wheel(255) == MakeColor(0.0, 255.0, 0.0) == Wheel(0)
  {
  }

  function Distance(x: real, y: real): real
  {
    if x < y then y - x else x - y
  }

  /** The hue cycle is continuous: one step of position moves every channel by at most 3. */
  lemma WheelContinuous(pos: int)
    requires 0 <= pos < 255
    ensures Distance(Wheel(pos).red, Wheel(pos + 1).red) <= 3.0
    ensures Distance(Wheel(pos).green, Wheel(pos + 1).green) <= 3.0
    ensures Distance(Wheel(pos).blue, Wheel(pos + 1).blue) <= 3.0
  {
  }

  /** The table of `fixcolor`. */
  lemma FixcolorTable(pos: int)
    ensures Fixcolor(0) == MakeColor(255.0, 0.0, 0.0)
    ensures Fixcolor(1) == MakeColor(0.0, 255.0, 0.0)
    ensures Fixcolor(2) == MakeColor(0.0, 0.0, 255.0)
    ensures Fixcolor(3) == MakeColor(128.0, 128.0, 0.0)
    ensures Fixcolor(4) == MakeColor(0.0, 128.0, 128.0)
    ensures Fixcolor(5) == MakeColor(128.0, 0.0, 128.0)
    ensures !(0 <= pos <= 5) ==> Fixcolor(pos) == MakeColor(255.0, 255.0, 255.0)
  {
  }
}
