/**
 * The plotting widgets (surfaceplot/views/graph_items.py), reduced to the
 * state they keep and the values they compute: the pixel-to-coordinate
 * scale shared by every X (and every Y) image axis, the cross-sections read
 * under the two movable lines, the cursor readout, the colour parsing of
 * the lookup table and the title labels. What a widget draws is not
 * modelled; a signal a widget emits is returned to the caller as a value.
 */
module GraphItems {
  import opened Basics
  import Style

  // ---------------------------------------------------------------------
  // XImageAxis / YImageAxis: the shared pixel-to-coordinate scale
  // ---------------------------------------------------------------------

  /**
   * The class attributes `points`, `range_` and `coe` of one axis class.
   * They are class attributes, so every instance of that axis class shares
   * one scale; the model has one object per axis class.
   */
  class AxisScale {
    var points: int
    var rangeMin: real
    var rangeMax: real
    var coe: real

    /** The coefficient is the one the current size and range give. */
    ghost predicate Valid()
      reads this
    {
      points > 0 && coe == (rangeMax - rangeMin) / points as real
    }

    /** The initial class attributes: one point, range (0, 1), coefficient 1. */
    constructor ()
      ensures Valid()
      ensures points == 1 && rangeMin == 0.0 && rangeMax == 1.0 && coe == 1.0
    {
      points := 1;
      rangeMin, rangeMax := 0.0, 1.0;
      coe := 1.0;
    }

    /** `change_data_range((lo, hi))`: new range, coefficient recomputed. */
    method ChangeDataRange(lo: real, hi: real)
      requires points > 0
      modifies this
      ensures Valid()
      ensures points == old(points) && rangeMin == lo && rangeMax == hi
    {
      rangeMin, rangeMax := lo, hi;
      coe := (rangeMax - rangeMin) / points as real;
    }

    /** `change_x_size(n)` / `change_y_size(n)`: new size, coefficient recomputed. */
    method ChangeSize(n: int)
      requires n > 0
      modifies this
      ensures Valid()
      ensures points == n && rangeMin == old(rangeMin) && rangeMax == old(rangeMax)
    {
      points := n;
      coe := (rangeMax - rangeMin) / points as real;
    }

    /** The coordinate a tick at pixel `v` is labelled with. */
    function Tick(v: real): real
      reads this
    {
      coe * v + rangeMin
    }

    /** `tickStrings(values, ...)` before formatting: one coordinate per tick. */
    function TickValues(values: seq<real>): (r: seq<real>)
      reads this
      ensures |r| == |values|
      ensures forall i :: 0 <= i < |r| ==> r[i] == Tick(values[i])
    {
      seq(|values|, i requires 0 <= i < |values| reads this => Tick(values[i]))
    }

    /** The pixel a coordinate sits at: the inverse of `Tick` for a non-empty range. */
    function Pixel(c: real): real
      reads this
      requires coe != 0.0
    {
      (c - rangeMin) / coe
    }
  }

  /** Pixel 0 is labelled with the range minimum and pixel `points` with its maximum. */
  lemma TickEnds(a: AxisScale)
    requires a.Valid()
    ensures a.Tick(0.0) == a.rangeMin
    ensures a.Tick(a.points as real) == a.rangeMax
  {
    var p := a.points as real;
    assert a.coe * p == a.rangeMax - a.rangeMin;
  }

  /** The tick label is the linear interpolation between the range ends. */
  lemma TickLinear(a: AxisScale, v: real)
    requires a.Valid()
    ensures a.Tick(v) == a.rangeMin + (a.rangeMax - a.rangeMin) * (v / a.points as real)
  {
    var p := a.points as real;
    assert a.coe * v == (a.rangeMax - a.rangeMin) * (v / p);
  }

  /** Over a non-empty range, pixels and coordinates correspond one to one. */
  lemma TickPixelInverse(a: AxisScale, v: real, c: real)
    requires a.Valid() && a.rangeMin != a.rangeMax
    ensures a.coe != 0.0
    ensures a.Pixel(a.Tick(v)) == v
    ensures a.Tick(a.Pixel(c)) == c
  {
    assert a.coe != 0.0 by {
      var p := a.points as real;
      assert a.coe * p == a.rangeMax - a.rangeMin;
    }
  }

  /** On an increasing range, larger pixels are labelled with larger coordinates. */
  lemma TickMonotone(a: AxisScale, v: real, w: real)
    requires a.Valid() && a.rangeMin <= a.rangeMax && v <= w
    ensures a.Tick(v) <= a.Tick(w)
  {
    assert a.coe >= 0.0;
    assert a.coe * v <= a.coe * w;
  }

  // ---------------------------------------------------------------------
  // ColormapWidget: cross-sections under the two lines
  // ---------------------------------------------------------------------

  /**
   * What `getHCrossSection` (an `HSection`) or `getVCrossSection` (a
   * `VSection`) carries: the section's data and the integer line index.
   */
  datatype Signal =
    | HSection(data: seq<real>, pos: int)
    | VSection(data: seq<real>, pos: int)

  /** `get_hcross_section`: the row under the horizontal line, if there is one. */
  function HCrossSection(image: Option<Grid>, linePos: real): (s: Option<Signal>)
    ensures s.Some? <==> image.Some? && 0 <= Trunc(linePos) < Height(image.value)
    ensures s.Some? ==> s.value == HSection(image.value[Trunc(linePos)], Trunc(linePos))
  {
    if image.None? then None
    else
      var p := Trunc(linePos);
      if 0 <= p < Height(image.value) then Some(HSection(image.value[p], p)) else None
  }

  /** `get_vcross_section`: the column under the vertical line, if there is one. */
  function VCrossSection(image: Option<Grid>, linePos: real): (s: Option<Signal>)
    ensures s.Some? <==> image.Some? && 0 <= Trunc(linePos) < Width(image.value)
    ensures s.Some? ==>
              && 0 <= Trunc(linePos) < Width(image.value)
              && s.value == VSection(Column(image.value, Trunc(linePos)), Trunc(linePos))
  {
    if image.None? then None
    else
      var p := Trunc(linePos);
      if 0 <= p < Width(image.value) then Some(VSection(Column(image.value, p), p)) else None
  }

  /** `int` truncates toward zero, so a line just above row 0 still reads row 0. */
  lemma HCrossSectionNearZero(image: Grid, linePos: real)
    requires -1.0 < linePos < 1.0 && Height(image) > 0
    ensures HCrossSection(Some(image), linePos) == Some(HSection(image[0], 0))
  {
  }

  /** A line inside the image always yields the section through the truncated index. */
  lemma CrossSectionsInside(image: Grid, hPos: real, vPos: real)
    requires 0.0 <= hPos < Height(image) as real && 0.0 <= vPos < Width(image) as real
    ensures HCrossSection(Some(image), hPos).Some?
    ensures VCrossSection(Some(image), vPos).Some?
    ensures |HCrossSection(Some(image), hPos).value.data| == Width(image)
    ensures |VCrossSection(Some(image), vPos).value.data| == Height(image)
  {
    TruncIndex(hPos, Height(image));
    TruncIndex(vPos, Width(image));
  }

  /** `int(ratio * pos)`: where a line goes when the image is re-sampled. */
  function ScaledPos(ratio: real, pos: real): real {
    Trunc(ratio * pos) as real
  }

  /** A scaled line position is a whole number no farther from 0 than the exact product. */
  lemma ScaledPosBounds(ratio: real, pos: real)
    ensures ScaledPos(ratio, pos).Floor as real == ScaledPos(ratio, pos)
    ensures 0.0 <= ratio * pos ==> 0.0 <= ScaledPos(ratio, pos) <= ratio * pos
    ensures ratio * pos < 0.0 ==> ratio * pos <= ScaledPos(ratio, pos) <= 0.0
  {
  }

  /** A signal as an optional one-element list. */
  function SignalList(s: Option<Signal>): seq<Signal> {
    if s.Some? then [s.value] else []
  }

  /**
   * The signals of moving the horizontal line from `h0` to `h`, then the
   * vertical one from `v0` to `v`: a line that stays put emits nothing.
   */
  function MoveSignals(image: Option<Grid>, h0: real, v0: real, h: real, v: real): (r: seq<Signal>)
    ensures |r| <= 2 && (image.None? || (h == h0 && v == v0) ==> r == [])
    ensures |r| == 2 ==> r[0].HSection? && r[1].VSection?
  {
    (if h == h0 then [] else SignalList(HCrossSection(image, h)))
    + (if v == v0 then [] else SignalList(VCrossSection(image, v)))
  }

  /** The signals the widget's `get_hcross_section` then `get_vcross_section` emit. */
  function Sections(image: Option<Grid>, hPos: real, vPos: real): (r: seq<Signal>)
    ensures |r| <= 2 && (image.None? ==> r == [])
    ensures forall i :: 0 <= i < |r| ==> (r[i].HSection? <==> i == 0 && HCrossSection(image, hPos).Some?)
  {
    SignalList(HCrossSection(image, hPos)) + SignalList(VCrossSection(image, vPos))
  }

  /**
   * The colour map: the displayed image, the positions of the horizontal
   * (`hcs_line`) and vertical (`vcs_line`) lines, and the two axis scales.
   */
  class ColormapWidget {
    var image: Option<Grid>
    var hcsPos: real
    var vcsPos: real
    const xAxis: AxisScale
    const yAxis: AxisScale

    ghost predicate Valid()
      reads this, xAxis, yAxis
    {
      xAxis != yAxis && xAxis.Valid() && yAxis.Valid()
    }

    /** No image yet; both lines at 0. */
    constructor (xAxis: AxisScale, yAxis: AxisScale)
      requires xAxis != yAxis && xAxis.Valid() && yAxis.Valid()
      ensures Valid()
      ensures this.xAxis == xAxis && this.yAxis == yAxis
      ensures image == None && hcsPos == 0.0 && vcsPos == 0.0
    {
      this.xAxis, this.yAxis := xAxis, yAxis;
      image := None;
      hcsPos, vcsPos := 0.0, 0.0;
    }

    /**
     * `hcs_line.setPos(p)`: a change of position re-reads the horizontal
     * cross-section; setting the current position again emits nothing.
     */
    method MoveHcsLine(p: real) returns (sig: seq<Signal>)
      modifies this
      ensures hcsPos == p && vcsPos == old(vcsPos) && image == old(image)
      ensures sig == if p == old(hcsPos) then [] else SignalList(HCrossSection(image, p))
    {
      if p == hcsPos {
        return [];
      }
      hcsPos := p;
      sig := SignalList(HCrossSection(image, hcsPos));
    }

    /** `vcs_line.setPos(p)`, the same for the vertical line. */
    method MoveVcsLine(p: real) returns (sig: seq<Signal>)
      modifies this
      ensures vcsPos == p && hcsPos == old(hcsPos) && image == old(image)
      ensures sig == if p == old(vcsPos) then [] else SignalList(VCrossSection(image, p))
    {
      if p == vcsPos {
        return [];
      }
      vcsPos := p;
      sig := SignalList(VCrossSection(image, vcsPos));
    }

    /** `change_line_pos(ratio)`: each line moves to `int(ratio * position)`. */
    method ChangeLinePos(ratio: real) returns (sig: seq<Signal>)
      modifies this
      ensures hcsPos == ScaledPos(ratio, old(hcsPos))
      ensures vcsPos == ScaledPos(ratio, old(vcsPos))
      ensures image == old(image)
      ensures sig == MoveSignals(image, old(hcsPos), old(vcsPos), hcsPos, vcsPos)
    {
      var h := ScaledPos(ratio, hcsPos);
      var v := ScaledPos(ratio, vcsPos);
      var s1 := MoveHcsLine(h);
      var s2 := MoveVcsLine(v);
      sig := s1 + s2;
    }

    /**
     * `set_image(image)`: shows the image, sizes both axis scales to it and
     * emits the sections under the lines as they are.
     */
    method SetImage(img: Grid) returns (sig: seq<Signal>)
      requires Valid() && Height(img) > 0 && Width(img) > 0
      modifies this, xAxis, yAxis
      ensures Valid()
      ensures image == Some(img) && hcsPos == old(hcsPos) && vcsPos == old(vcsPos)
      ensures xAxis.points == Width(img) && yAxis.points == Height(img)
      ensures xAxis.rangeMin == old(xAxis.rangeMin) && xAxis.rangeMax == old(xAxis.rangeMax)
      ensures yAxis.rangeMin == old(yAxis.rangeMin) && yAxis.rangeMax == old(yAxis.rangeMax)
      ensures sig == Sections(image, hcsPos, vcsPos)
    {
      image := Some(img);
      xAxis.ChangeSize(Width(img));
      yAxis.ChangeSize(Height(img));
      sig := Sections(image, hcsPos, vcsPos);
    }

    /**
     * `resize_image(image)`: shows a re-sampled image and scales both line
     * positions by the ratio of the new height to the old one.
     */
    method ResizeImage(img: Grid) returns (sig: seq<Signal>)
      requires Valid() && Height(img) > 0 && Width(img) > 0
      requires image.Some? && Height(image.value) > 0
      modifies this, xAxis, yAxis
      ensures Valid()
      ensures image == Some(img)
      ensures var ratio := Height(img) as real / Height(old(image).value) as real;
        hcsPos == ScaledPos(ratio, old(hcsPos)) && vcsPos == ScaledPos(ratio, old(vcsPos))
      ensures xAxis.points == Width(img) && yAxis.points == Height(img)
      ensures xAxis.rangeMin == old(xAxis.rangeMin) && xAxis.rangeMax == old(xAxis.rangeMax)
      ensures yAxis.rangeMin == old(yAxis.rangeMin) && yAxis.rangeMax == old(yAxis.rangeMax)
      ensures sig == Sections(image, old(hcsPos), old(vcsPos)) + MoveSignals(image, old(hcsPos), old(vcsPos), hcsPos, vcsPos)
    {
      var ratio := Height(img) as real / Height(image.value) as real;
      var s1 := SetImage(img);
      var s2 := ChangeLinePos(ratio);
      sig := s1 + s2;
    }
  }

  // ---------------------------------------------------------------------
  // make_lookup_table.hex_to_rgb
  // ---------------------------------------------------------------------

  predicate IsHexDigit(c: char) {
    '0' <= c <= '9' || 'a' <= c <= 'f' || 'A' <= c <= 'F'
  }

  function HexValue(c: char): (v: int)
    requires IsHexDigit(c)
    ensures 0 <= v < 16
  {
    if '0' <= c <= '9' then c as int - '0' as int
    else if 'a' <= c <= 'f' then c as int - 'a' as int + 10
    else c as int - 'A' as int + 10
  }

  function HexChar(v: int): (c: char)
    requires 0 <= v < 16
    ensures IsHexDigit(c) && HexValue(c) == v
  {
    if v < 10 then ('0' as int + v) as char else ('a' as int + v - 10) as char
  }

  /** The characters Python's `str.isspace` accepts, which `int()` strips. */
  predicate IsPySpace(c: char) {
    var k := c as int;
    (9 <= k <= 13) || (28 <= k <= 32) || k == 0x85 || k == 0xA0 || k == 0x1680
    || (0x2000 <= k <= 0x200A) || k == 0x2028 || k == 0x2029 || k == 0x202F
    || k == 0x205F || k == 0x3000
  }

  function LStripSpace(s: string): (r: string)
    ensures |r| <= |s|
  {
    if s != [] && IsPySpace(s[0]) then LStripSpace(s[1..]) else s
  }

  function RStripSpace(s: string): (r: string)
    ensures |r| <= |s|
  {
    if s != [] && IsPySpace(s[|s| - 1]) then RStripSpace(s[..|s| - 1]) else s
  }

  /** `str.lstrip('#')` */
  function LStripHash(s: string): (r: string)
    ensures |r| <= |s|
  {
    if s != [] && s[0] == '#' then LStripHash(s[1..]) else s
  }

  predicate AllHex(s: string) {
    forall i :: 0 <= i < |s| ==> IsHexDigit(s[i])
  }

  /** Value of a string of hexadecimal digits. */
  function HexDigitsValue(s: string): (v: nat)
    requires AllHex(s)
    decreases |s|
  {
    if s == [] then 0 else HexDigitsValue(s[..|s| - 1]) * 16 + HexValue(s[|s| - 1])
  }

  /** `n` hexadecimal digits have a value below 16^n. */
  lemma {:induction false} HexDigitsBound(s: string)
    requires AllHex(s)
    ensures |s| == 0 ==> HexDigitsValue(s) == 0
    ensures |s| == 1 ==> HexDigitsValue(s) < 16
    ensures |s| == 2 ==> HexDigitsValue(s) < 256
  {
    if |s| > 0 {
      var t := s[..|s| - 1];
      HexDigitsBound(t);
    }
  }

  /**
   * `int(s, 16)` on text whose digits are ASCII: surrounding white space
   * is ignored, one sign is allowed, then at least one hexadecimal digit;
   * anything else is a ValueError (None). Python also reads the decimal
   * digits of other scripts by their value; the model rejects them. The
   * `0x` prefix and `_` between digits, which Python accepts as well, give
   * a ValueError in a two-character slice either way.
   */
  function PyIntHexGeneral(s: string): (r: Option<int>)
    ensures |s| <= 2 && r.Some? ==> -15 <= r.value <= 255
  {
    var t := RStripSpace(LStripSpace(s));
    var neg := |t| > 0 && t[0] == '-';
    var digits := if |t| > 0 && (t[0] == '+' || t[0] == '-') then t[1..] else t;
    if digits == [] || !AllHex(digits) then None
    else
      var v: int := HexDigitsValue(digits);
      HexDigitsBound(digits);
      Some(if neg then -v else v)
  }

  /**
   * `int(s, 16)`, reading a plain run of digits directly (PyIntHexPlain
   * shows that this is what the general reading gives). Two characters at
   * most give a value in -15..255: a sign leaves room for one digit only.
   */
  function PyIntHex(s: string): (r: Option<int>)
    ensures |s| <= 2 && r.Some? ==> -15 <= r.value <= 255
  {
    if s != [] && AllHex(s) then
      HexDigitsBound(s);
      Some(HexDigitsValue(s))
    else
      PyIntHexGeneral(s)
  }

  /** The direct reading of plain digits agrees with Python's general one. */
  lemma PyIntHexPlain(s: string)
    ensures PyIntHex(s) == PyIntHexGeneral(s)
  {
    if s != [] && AllHex(s) {
      assert !IsPySpace(s[0]) && !IsPySpace(s[|s| - 1]);
      assert LStripSpace(s) == s;
      assert RStripSpace(s) == s;
      assert s[0] != '+' && s[0] != '-';
    }
  }

  /** Two hexadecimal digits parse to their value, without sign or spaces. */
  lemma PyIntHexPair(s: string)
    requires |s| == 2 && AllHex(s)
    ensures PyIntHex(s) == Some(HexValue(s[0]) * 16 + HexValue(s[1]))
  {
    assert s[..1] == [s[0]];
    assert HexDigitsValue(s[..1]) == HexValue(s[0]);
    assert HexDigitsValue(s) == HexDigitsValue(s[..1]) * 16 + HexValue(s[1]);
  }

  /** The three pairs at offsets 0, 2 and 4, each parsed as hexadecimal. */
  function Channels(h: string): (c: Option<seq<int>>)
    ensures c.Some? ==> |c.value| == 3 && forall i :: 0 <= i < 3 ==> -15 <= c.value[i] <= 255
  {
    var r := PyIntHex(PySlice(h, 0, 2));
    var g := PyIntHex(PySlice(h, 2, 4));
    var b := PyIntHex(PySlice(h, 4, 6));
    if r.None? || g.None? || b.None? then None else Some([r.value, g.value, b.value])
  }

  /** `hex_to_rgb(hex_)`: every leading '#' is dropped, then three channels are read. */
  function HexToRgb(hex: string): (r: Option<seq<int>>)
    ensures r.Some? ==> |r.value| == 3
    ensures r.Some? ==> forall i :: 0 <= i < 3 ==> -15 <= r.value[i] <= 255
  {
    Channels(LStripHash(hex))
  }

  /** A colour as `#rrggbb` in lower-case hexadecimal. */
  function RgbToHex(c: seq<int>): (s: string)
    requires |c| == 3 && forall i :: 0 <= i < 3 ==> 0 <= c[i] < 256
  {
    "#" + [HexChar(c[0] / 16), HexChar(c[0] % 16), HexChar(c[1] / 16), HexChar(c[1] % 16),
           HexChar(c[2] / 16), HexChar(c[2] % 16)]
  }

  /** Two hexadecimal digits parse to their value. */
  lemma PairValue(a: char, b: char)
    requires IsHexDigit(a) && IsHexDigit(b)
    ensures PyIntHex([a, b]) == Some(HexValue(a) * 16 + HexValue(b))
  {
    PyIntHexPair([a, b]);
  }

  /** Six hexadecimal digits give three channels, one per pair. */
  lemma ChannelsOfDigits(h: string)
    requires |h| == 6 && AllHex(h)
    ensures Channels(h) == Some([HexValue(h[0]) * 16 + HexValue(h[1]),
                                 HexValue(h[2]) * 16 + HexValue(h[3]),
                                 HexValue(h[4]) * 16 + HexValue(h[5])])
  {
    assert PySlice(h, 0, 2) == [h[0], h[1]];
    assert PySlice(h, 2, 4) == [h[2], h[3]];
    assert PySlice(h, 4, 6) == [h[4], h[5]];
    PairValue(h[0], h[1]);
    PairValue(h[2], h[3]);
    PairValue(h[4], h[5]);
  }

  /** A '#' before a string that does not start with '#' is the only one stripped. */
  lemma LStripOneHash(h: string)
    requires h == [] || h[0] != '#'
    ensures LStripHash("#" + h) == h
  {
    assert ("#" + h)[1..] == h;
  }

  /** A '#' followed by six hexadecimal digits gives three channels in 0..255. */
  lemma HexToRgbSixDigits(h: string)
    requires |h| == 6 && AllHex(h)
    ensures HexToRgb("#" + h) == Some([HexValue(h[0]) * 16 + HexValue(h[1]),
                                       HexValue(h[2]) * 16 + HexValue(h[3]),
                                       HexValue(h[4]) * 16 + HexValue(h[5])])
  {
    assert IsHexDigit(h[0]);
    LStripOneHash(h);
    ChannelsOfDigits(h);
  }

  /** Reading back a formatted colour gives the colour: channels in 0..255 survive. */
  lemma HexToRgbRoundTrip(c: seq<int>)
    requires |c| == 3 && forall i :: 0 <= i < 3 ==> 0 <= c[i] < 256
    ensures HexToRgb(RgbToHex(c)) == Some(c)
  {
    var h := [HexChar(c[0] / 16), HexChar(c[0] % 16), HexChar(c[1] / 16), HexChar(c[1] % 16),
              HexChar(c[2] / 16), HexChar(c[2] % 16)];
    assert RgbToHex(c) == "#" + h;
    assert AllHex(h);
    HexToRgbSixDigits(h);
    assert [c[0], c[1], c[2]] == c;
  }

  /** A sign is accepted, so a channel can come out negative: `#-f0000` gives -15. */
  lemma HexToRgbNegative()
    ensures HexToRgb("#-f0000") == Some([-15, 0, 0])
  {
    var h := "-f0000";
    LStripOneHash(h);
    assert "#-f0000" == "#" + h;
    assert PySlice(h, 0, 2) == "-f";
    assert PySlice(h, 2, 4) == "00";
    assert PySlice(h, 4, 6) == "00";
    MinusF();
    PairValue('0', '0');
  }

  /** `int("-f", 16)` is -15. */
  lemma MinusF()
    ensures PyIntHex("-f") == Some(-15)
  {
    var a := "-f";
    assert !AllHex(a) by { assert !IsHexDigit(a[0]); }
    assert LStripSpace(a) == a && RStripSpace(a) == a;
    assert a[1..] == "f";
    assert "f"[..0] == [];
    assert HexDigitsValue("f") == 15;
  }

  // ---------------------------------------------------------------------
  // GraphTitleLabel
  // ---------------------------------------------------------------------

  /** The three changeable texts of the title bar: title, Y and X positions. */
  class GraphTitleLabel {
    var title: string
    var hcs: string
    var vcs: string

    /** `pg.LabelItem()` starts with the text " ". */
    constructor ()
      ensures title == " " && hcs == " " && vcs == " "
    {
      title, hcs, vcs := " ", " ", " ";
    }

    /** `set_text(text, hv)`: 'h' sets the Y label, 'v' the X label, anything else nothing. */
    method SetText(text: string, hv: string)
      modifies this
      ensures title == old(title)
      ensures hcs == if hv == "h" then Style.GraphTitle(text) else old(hcs)
      ensures vcs == if hv != "h" && hv == "v" then Style.GraphTitle(text) else old(vcs)
    {
      if hv == "h" {
        hcs := Style.GraphTitle(text);
      } else if hv == "v" {
        vcs := Style.GraphTitle(text);
      } else {
        return;
      }
    }

    /** `SurfacePlot.set_title(title)` */
    method SetTitle(t: string)
      modifies this
      ensures title == Style.GraphTitle(t) && hcs == old(hcs) && vcs == old(vcs)
    {
      title := Style.GraphTitle(t);
    }
  }

  // ---------------------------------------------------------------------
  // SurfacePlot: cursor readout, curves, image and title
  // ---------------------------------------------------------------------

  /** The image value under a cursor at view coordinates (x, y). */
  function CursorValue(image: Option<Grid>, inside: bool, x: real, y: real): (v: Option<real>)
    ensures v.Some? <==>
              image.Some? && inside
              && 0.0 <= x < Width(image.value) as real && 0.0 <= y < Height(image.value) as real
    ensures v.Some? ==>
              && 0 <= Trunc(y) < Height(image.value) && 0 <= Trunc(x) < Width(image.value)
              && v.value == image.value[Trunc(y)][Trunc(x)]
  {
    if image.None? || !inside then None
    else if 0.0 <= x < Width(image.value) as real && 0.0 <= y < Height(image.value) as real then
      TruncIndex(x, Width(image.value));
      TruncIndex(y, Height(image.value));
      Some(image.value[Trunc(y)][Trunc(x)])
    else None
  }

  /**
   * The surface plot: the colour map, the title bar, and the two
   * cross-section plots, each with its curve and its one cursor point.
   * The horizontal plot draws (x, value) and the vertical one (value, y).
   */
  class SurfacePlot {
    const colormap: ColormapWidget
    const titleLabel: GraphTitleLabel
    var hcsCurve: Option<seq<real>>
    var vcsCurve: Option<seq<real>>
    var hcsCursor: Option<(real, real)>
    var vcsCursor: Option<(real, real)>

    ghost predicate Valid()
      reads this, colormap, colormap.xAxis, colormap.yAxis
    {
      colormap.Valid()
    }

    constructor (colormap: ColormapWidget, titleLabel: GraphTitleLabel)
      requires colormap.Valid()
      ensures Valid()
      ensures this.colormap == colormap && this.titleLabel == titleLabel
      ensures hcsCurve == None && vcsCurve == None && hcsCursor == None && vcsCursor == None
    {
      this.colormap, this.titleLabel := colormap, titleLabel;
      hcsCurve, vcsCurve := None, None;
      hcsCursor, vcsCursor := None, None;
    }

    /**
     * `get_cursor_data(evt)`, with `inside` telling whether the scene
     * position lies in the colour map and (x, y) its view coordinates:
     * both cursor points move only when (x, y) lies on the image.
     */
    method GetCursorData(inside: bool, x: real, y: real)
      modifies this
      ensures hcsCurve == old(hcsCurve) && vcsCurve == old(vcsCurve)
      ensures var v := CursorValue(colormap.image, inside, x, y);
        && (v.Some? ==> hcsCursor == Some((x, v.value)) && vcsCursor == Some((v.value, y)))
        && (v.None? ==> hcsCursor == old(hcsCursor) && vcsCursor == old(vcsCursor))
    {
      var v := CursorValue(colormap.image, inside, x, y);
      if v.Some? {
        hcsCursor := Some((x, v.value));
        vcsCursor := Some((v.value, y));
      }
    }

    /** `plot_hcross_section(data, _)` */
    method PlotHCrossSection(data: seq<real>)
      modifies this
      ensures hcsCurve == Some(data) && vcsCurve == old(vcsCurve)
      ensures hcsCursor == old(hcsCursor) && vcsCursor == old(vcsCursor)
    {
      hcsCurve := Some(data);
    }

    /** `plot_vcross_section(data, _)` */
    method PlotVCrossSection(data: seq<real>)
      modifies this
      ensures vcsCurve == Some(data) && hcsCurve == old(hcsCurve)
      ensures hcsCursor == old(hcsCursor) && vcsCursor == old(vcsCursor)
    {
      vcsCurve := Some(data);
    }

    /**
     * `set_image(image, xrange, yrange)`: shows the image, sizes both axis
     * scales to it, then gives each scale the coordinate range passed.
     */
    method SetImage(img: Grid, xrange: Option<(real, real)>, yrange: Option<(real, real)>)
      returns (sig: seq<Signal>)
      requires Valid() && Height(img) > 0 && Width(img) > 0
      modifies colormap, colormap.xAxis, colormap.yAxis
      ensures Valid()
      ensures colormap.image == Some(img)
      ensures colormap.hcsPos == old(colormap.hcsPos) && colormap.vcsPos == old(colormap.vcsPos)
      ensures colormap.xAxis.points == Width(img) && colormap.yAxis.points == Height(img)
      ensures xrange.Some? ==> colormap.xAxis.rangeMin == xrange.value.0 && colormap.xAxis.rangeMax == xrange.value.1
      ensures xrange.None? ==> colormap.xAxis.rangeMin == old(colormap.xAxis.rangeMin) && colormap.xAxis.rangeMax == old(colormap.xAxis.rangeMax)
      ensures yrange.Some? ==> colormap.yAxis.rangeMin == yrange.value.0 && colormap.yAxis.rangeMax == yrange.value.1
      ensures yrange.None? ==> colormap.yAxis.rangeMin == old(colormap.yAxis.rangeMin) && colormap.yAxis.rangeMax == old(colormap.yAxis.rangeMax)
      ensures sig == Sections(colormap.image, colormap.hcsPos, colormap.vcsPos)
    {
      sig := colormap.SetImage(img);
      colormap.xAxis.ChangeSize(Width(img));
      colormap.yAxis.ChangeSize(Height(img));
      if xrange.Some? {
        colormap.xAxis.ChangeDataRange(xrange.value.0, xrange.value.1);
      }
      if yrange.Some? {
        colormap.yAxis.ChangeDataRange(yrange.value.0, yrange.value.1);
      }
    }
  }
}
