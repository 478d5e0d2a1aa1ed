// The controller-independent part of the Atmel frame-buffer driver
// (drivers/video/atmel_lcdfb_core.c): validating a requested screen mode,
// applying it, the colour registers, blanking and panning, and the size of
// the video memory. The controller operations it dispatches to are those
// of the HLCDC model (module Hlcdfb): the base layer has start and stop,
// an overlay has neither.
module LcdfbCore {
  import opened Common
  import opened Fb
  import opened Hlcdfb

  /** How the panel's colour lines are wired (ATMEL_LCDC_WIRING_*). */
  datatype Wiring = WiringBgr | WiringRgb | WiringRgb555

  /** The four channel positions check_var settles on. */
  datatype Layout = Layout(red: Bitfield, green: Bitfield, blue: Bitfield, transp: Bitfield)

  function Field(offset: bv32, length: bv32): Bitfield
  {
    Bitfield(offset, length, 0)
  }

  /** A channel lies within the pixel. */
  predicate Inside(b: Bitfield, bpp: nat)
  {
    b.offset as int + b.length as int <= bpp
  }

  /** Two channels share no bit. */
  predicate Apart(a: Bitfield, b: Bitfield)
  {
    a.offset as int + a.length as int <= b.offset as int || b.offset as int + b.length as int <= a.offset as int
  }

  /**
   * The channel layout check_var gives each depth it accepts: palette
   * depths index every channel with all bits; 15 and 16 bpp are 5-6-5 or
   * 5-5-5 with red and blue placed by the wiring; 24 and 32 bpp are 8-8-8,
   * and 32 bpp adds an 8-bit alpha channel at the top. Any other depth is
   * refused.
   */
  function ColorLayout(bpp: nat, wiring: Wiring): (r: Option<Layout>)
    ensures r.None? <==> bpp !in {1, 2, 4, 8, 15, 16, 24, 32}
    ensures r.Some? && bpp <= 8 ==>
      r.value.red == r.value.green == r.value.blue && r.value.transp == Field(0, 0) &&
      r.value.red.offset == 0 && r.value.red.length as int == bpp
    ensures r.Some? ==> (r.value.transp.length != 0 <==> bpp == 32)
    ensures r.Some? ==> r.value.red.msbRight == r.value.green.msbRight == r.value.blue.msbRight == r.value.transp.msbRight == 0
  {
    if bpp in {1, 2, 4, 8} then
      var depth: bv32 := if bpp == 1 then 1 else if bpp == 2 then 2 else if bpp == 4 then 4 else 8;
      Some(Layout(Field(0, depth), Field(0, depth), Field(0, depth), Field(0, 0)))
    else if bpp in {15, 16} then
      var redOffset := if wiring == WiringRgb then 11 else if wiring == WiringRgb555 then 10 else 0;
      var blueOffset := if wiring == WiringBgr then 10 else 0;
      var greenLength := if wiring == WiringRgb then 6 else 5;
      Some(Layout(Field(redOffset, 5), Field(5, greenLength), Field(blueOffset, 5), Field(0, 0)))
    else if bpp in {24, 32} then
      var transp := if bpp == 32 then Field(24, 8) else Field(0, 0);
      var redOffset := if wiring == WiringRgb then 16 else 0;
      var blueOffset := if wiring == WiringRgb then 0 else 16;
      Some(Layout(Field(redOffset, 8), Field(8, 8), Field(blueOffset, 8), transp))
    else None
  }

  /**
   * In the true-colour depths of the controller (16, 24 and 32 bpp) the
   * channels lie within the pixel and share no bit, whatever the wiring.
   */
  lemma TrueColorChannelsApart(bpp: nat, wiring: Wiring)
    requires bpp in {16, 24, 32}
    ensures ColorLayout(bpp, wiring).Some?
    ensures var l := ColorLayout(bpp, wiring).value;
      Inside(l.red, bpp) && Inside(l.green, bpp) && Inside(l.blue, bpp) && Inside(l.transp, bpp) &&
      Apart(l.red, l.green) && Apart(l.red, l.blue) && Apart(l.green, l.blue) &&
      (l.transp.length != 0 ==> Apart(l.transp, l.red) && Apart(l.transp, l.green) && Apart(l.transp, l.blue))
  {
    match wiring
    case WiringRgb =>
    case WiringRgb555 =>
    case WiringBgr =>
  }

  /**
   * Every depth check_var accepts has an HLCDC pixel format, except 15 bpp,
   * which the controller cannot scan out.
   */
  lemma AcceptedDepthsHaveModes(bpp: nat, wiring: Wiring, transpOffset: bv32)
    requires ColorLayout(bpp, wiring).Some?
    ensures GetRgbMode(bpp, transpOffset) == NoMode <==> bpp == 15
  {
  }

  /** ALIGN(x, 4) in unbounded arithmetic: the next multiple of four. */
  function LineAlign(x: nat): (r: nat)
    ensures r % 4 == 0 && x <= r < x + 4
  {
    Align(x, 4)
  }

  /** Alignment keeps the order of two widths. */
  lemma LineAlignMonotone(x: nat, y: nat)
    requires x <= y
    ensures LineAlign(x) <= LineAlign(y)
  {
    DivMono(x + 3, y + 3, 4);
    MulMono((x + 3) / 4, (y + 3) / 4, 4);
  }

  /** `(x + 3) & ~3UL` as check_var writes it on a `__u32` field. */
  function LineAlignAsWritten(x: nat): (r: int)
    ensures IsU32(r) && r % 4 == 0
  {
    var s := Wrap32(x + 3);
    s - s % 4
  }

  /**
   * Near the top of the 32-bit range the alignment as written wraps to
   * zero, so a screen 8 pixels wide with a virtual width of 0xFFFFFFFD
   * leaves check_var wider than its virtual screen.
   */
  lemma VirtualAlignWrapsAsWritten()
    ensures LineAlignAsWritten(0xFFFF_FFFD) == 0
    ensures LineAlignAsWritten(8) == 8 > LineAlignAsWritten(Max(8, 0xFFFF_FFFD))
  {
  }

  /** The bytes a frame of the virtual screen needs: whole bytes per pixel. */
  function FrameBytes(xv: nat, yv: nat, bpp: nat): (n: nat)
    ensures xv * yv * bpp <= n * 8
  {
    MulNonneg(xv, yv);
    var bytes := (bpp + 7) / 8;
    MulNonneg(xv * yv, bytes);
    MulMono(bpp, bytes * 8, xv * yv);
    assert xv * yv * bytes * 8 == bytes * 8 * (xv * yv);
    xv * yv * bytes
  }

  /** The frame size as the `unsigned int` products of check_var and alloc_video_memory compute it. */
  function FrameBytesAsWritten(xv: nat, yv: nat, bpp: nat): (n: int)
    ensures IsU32(n)
  {
    Wrap32(Wrap32(xv * yv) * (Wrap32(bpp + 7) / 8))
  }

  /** The two computations agree while the frame fits in 32 bits. */
  lemma FrameBytesAgree(xv: nat, yv: nat, bpp: nat)
    requires bpp + 7 < TWO32 && xv * yv < TWO32 && FrameBytes(xv, yv, bpp) < TWO32
    ensures FrameBytesAsWritten(xv, yv, bpp) == FrameBytes(xv, yv, bpp)
  {
    MulNonneg(xv, yv);
    WrapIdem(bpp + 7);
    WrapIdem(xv * yv);
    WrapIdem(xv * yv * ((bpp + 7) / 8));
  }

  /**
   * A 65536 x 65536 virtual screen at 8 bpp needs 4 GiB, but the 32-bit
   * product is 0 and passes the memory check for any video memory size.
   */
  lemma SmemCheckWrapsAsWritten()
    ensures FrameBytesAsWritten(65536, 65536, 8) == 0
    ensures FrameBytes(65536, 65536, 8) == TWO32
  {
  }

  /**
   * atmel_lcdfb_alloc_video_memory's size: the frame of the initial mode,
   * or the platform's size when that is larger.
   */
  function SmemLen(v: VarScreen, platformLen: nat): (n: int)
    ensures n >= platformLen && n >= FrameBytesAsWritten(v.xresVirtual, v.yresVirtual, v.bitsPerPixel)
    ensures n == platformLen || n == FrameBytesAsWritten(v.xresVirtual, v.yresVirtual, v.bitsPerPixel)
  {
    Max(FrameBytesAsWritten(v.xresVirtual, v.yresVirtual, v.bitsPerPixel), platformLen)
  }

  /** When the initial frame fits in 32 bits, the video memory holds all of it. */
  lemma SmemHoldsInitialFrame(v: VarScreen, platformLen: nat)
    requires v.bitsPerPixel + 7 < TWO32 && v.xresVirtual * v.yresVirtual < TWO32
    requires FrameBytes(v.xresVirtual, v.yresVirtual, v.bitsPerPixel) < TWO32
    ensures SmemLen(v, platformLen) >= FrameBytes(v.xresVirtual, v.yresVirtual, v.bitsPerPixel)
  {
    FrameBytesAgree(v.xresVirtual, v.yresVirtual, v.bitsPerPixel);
  }

  /** Whether check_var must ask the mode list for a mode: a pixel clock or a depth is missing. */
  predicate NeedsMode(v: VarScreen)
  {
    v.pixclock == 0 || v.bitsPerPixel == 0
  }

  /** The screen check_var goes on with: the request, or the request merged with the nearest mode of the list. */
  function Requested(v: VarScreen, chosen: Option<Videomode>): VarScreen
    requires NeedsMode(v) ==> chosen.Some?
  {
    if NeedsMode(v) then VideomodeToVar(v, chosen.value) else v
  }

  /**
   * check_var's first rewrite: a virtual screen at least as large as the
   * visible one, both widths aligned to four pixels, channels most
   * significant bit first, no alpha, no panning offset.
   */
  method FitVirtual(v: VarScreen) returns (r: VarScreen)
    ensures r == v.(xres := LineAlign(v.xres), xresVirtual := LineAlign(Max(v.xres, v.xresVirtual)),
                    yresVirtual := Max(v.yres, v.yresVirtual),
                    red := v.red.(msbRight := 0), green := v.green.(msbRight := 0), blue := v.blue.(msbRight := 0),
                    transp := Field(0, 0), xoffset := 0, yoffset := 0)
    ensures r.xres % 4 == 0 && r.xres <= r.xresVirtual && r.yres <= r.yresVirtual
  {
    var xv, yv := v.xresVirtual, v.yresVirtual;
    if v.xres > xv {
      xv := v.xres;
    }
    if v.yres > yv {
      yv := v.yres;
    }
    LineAlignMonotone(v.xres, xv);
    r := v.(xres := LineAlign(v.xres), xresVirtual := LineAlign(xv), yresVirtual := yv,
            red := v.red.(msbRight := 0), green := v.green.(msbRight := 0), blue := v.blue.(msbRight := 0),
            transp := Field(0, 0), xoffset := 0, yoffset := 0);
  }

  /** check_var's floor on the timings that cannot be zero. */
  method FloorTimings(v: VarScreen) returns (r: VarScreen)
    ensures r == v.(vsyncLen := Max(v.vsyncLen, 1), rightMargin := Max(v.rightMargin, 1),
                    hsyncLen := Max(v.hsyncLen, 1), leftMargin := Max(v.leftMargin, 1))
  {
    r := v;
    r := r.(vsyncLen := Max(r.vsyncLen, 1));
    r := r.(rightMargin := Max(r.rightMargin, 1));
    r := r.(hsyncLen := Max(r.hsyncLen, 1));
    r := r.(leftMargin := Max(r.leftMargin, 1));
  }

  /**
   * The last stage of check_var: saturate the timings at the controller's
   * field maxima when it has them, floor the timings that cannot be zero,
   * and lay out the colour channels for the depth, refusing an unknown
   * depth. The geometry, depth, clock and flags are left alone.
   */
  method Settle(v: VarScreen, limits: Option<FieldMax>, wiring: Wiring) returns (ok: bool, r: VarScreen)
    ensures ok <==> ColorLayout(v.bitsPerPixel, wiring).Some?
    ensures ok ==> ColorLayout(v.bitsPerPixel, wiring) == Some(ScreenLayout(r))
    ensures r.xres == v.xres && r.yres == v.yres && r.xresVirtual == v.xresVirtual &&
            r.yresVirtual == v.yresVirtual && r.xoffset == v.xoffset && r.yoffset == v.yoffset &&
            r.bitsPerPixel == v.bitsPerPixel && r.pixclock == v.pixclock && r.sync == v.sync &&
            r.nonstd == v.nonstd && r.grayscale == v.grayscale
    ensures r.vsyncLen >= 1 && r.hsyncLen >= 1 && r.leftMargin >= 1 && r.rightMargin >= 1
    ensures limits.Some? ==>
      var m := limits.value;
      r.vsyncLen <= m.vspw + 1 && r.hsyncLen <= m.hspw + 1 && r.upperMargin <= m.vbpw &&
      r.lowerMargin <= m.vfpw + 1 && r.leftMargin <= m.hbpw + 1 && r.rightMargin <= m.hfpw + 1
  {
    r := v;
    if limits.Some? {
      r := LimitScreeninfo(r, limits.value);
    }
    r := FloorTimings(r);
    var layout := ColorLayout(r.bitsPerPixel, wiring);
    if layout.None? {
      return false, r;
    }
    r := r.(red := layout.value.red, green := layout.value.green, blue := layout.value.blue,
            transp := layout.value.transp);
    ok := true;
  }

  /** The visual set_par chooses for a depth. */
  function VisualOf(bpp: nat): (vis: Visual)
    ensures vis == Mono01 <==> bpp == 1
    ensures vis == TrueColor <==> bpp > 8
  {
    if bpp == 1 then Mono01 else if bpp <= 8 then PseudoColor else TrueColor
  }

  /** The colour registers setcolreg accepts for a visual. */
  function PaletteSize(vis: Visual): nat
  {
    match vis
    case Mono01 => 2
    case PseudoColor => 256
    case TrueColor => 16
  }

  /**
   * The bytes of one line: the bits of a virtual line in a 32-bit
   * `unsigned long`, rounded up to whole bytes by a DIV_ROUND_UP that wraps
   * too. Below the wrap it is the exact byte count; it never exceeds 2^29.
   */
  function LineLength(xv: nat, bpp: nat): (n: nat)
    ensures xv * bpp + 7 < TWO32 ==> xv * bpp <= 8 * n < xv * bpp + 8
    ensures n < 0x2000_0000
  {
    RoundUpToBytes(xv, bpp);
    DivRoundUp32(Wrap32(xv * bpp), 8)
  }

  /** The arithmetic of LineLength for a line of `xv` pixels of `bpp` bits. */
  lemma RoundUpToBytes(xv: nat, bpp: nat)
    ensures xv * bpp + 7 < TWO32 ==> xv * bpp <= 8 * DivRoundUp32(Wrap32(xv * bpp), 8) < xv * bpp + 8
    ensures DivRoundUp32(Wrap32(xv * bpp), 8) < 0x2000_0000
  {
    var bits := xv * bpp;
    if bits + 7 < TWO32 {
      WrapIdem(bits);
      assert DivRoundUp32(bits, 8) == (bits + 7) / 8;
    }
  }

  /** A virtual line of 0xFFFFFFFC one-bit pixels gets a line length of 0. */
  lemma LineLengthWrapsAsWritten()
    ensures LineLength(0xFFFF_FFFC, 1) == 0
  {
    RoundUpWrapsAtTop();
  }

  /**
   * chan_to_field: the top `length` bits of a 16-bit colour value, placed
   * at the channel's offset of a 32-bit pixel.
   */
  function ChanToField(chan: bv32, bf: Bitfield): bv32
    requires bf.length <= 16 && bf.offset < 32
  {
    Place(chan, bf.offset, bf.length)
  }

  function Place(chan: bv32, off: bv32, len: bv32): bv32
    requires len <= 16 && off < 32
  {
    ((chan & 0xffff) >> (16 - len)) << off
  }

  /** The channel a pixel holds at a bit field. */
  function FieldOf(pixel: bv32, bf: Bitfield): bv32
    requires bf.length <= 16 && bf.offset < 32
  {
    Extract(pixel, bf.offset, bf.length)
  }

  function Extract(pixel: bv32, off: bv32, len: bv32): bv32
    requires len <= 16 && off < 32
  {
    (pixel >> off) & ((1 << len) - 1)
  }

  /** The top `length` bits of a 16-bit colour value. */
  function TopBits(chan: bv32, bf: Bitfield): bv32
    requires bf.length <= 16
  {
    Top(chan, bf.length)
  }

  function Top(chan: bv32, len: bv32): bv32
    requires len <= 16
  {
    (chan & 0xffff) >> (16 - len)
  }

  /** The channel positions chan_to_field can shift to (check_var's layouts all are). */
  predicate Placeable(l: Layout)
  {
    l.red.length <= 16 && l.red.offset < 32 && l.green.length <= 16 &&
    l.green.offset < 32 && l.blue.length <= 16 && l.blue.offset < 32
  }

  /** The channel positions of a screen. */
  function ScreenLayout(v: VarScreen): Layout
  {
    Layout(v.red, v.green, v.blue, v.transp)
  }

  /** A true-colour pseudo-palette entry: the three channels placed by the layout. */
  function TrueColorEntry(c: (bv32, bv32, bv32), l: Layout): bv32
    requires Placeable(l)
  {
    ChanToField(c.0, l.red) | ChanToField(c.1, l.green) | ChanToField(c.2, l.blue)
  }

  /**
   * For every true-colour layout check_var settles on, each channel of a
   * pseudo-palette entry holds exactly the top bits of that channel's
   * colour value: the three fields do not disturb each other.
   */
  lemma TrueColorEntryDecodes(c: (bv32, bv32, bv32), bpp: nat, wiring: Wiring)
    requires bpp in {16, 24, 32}
    ensures ColorLayout(bpp, wiring).Some? && Placeable(ColorLayout(bpp, wiring).value)
    ensures var l := ColorLayout(bpp, wiring).value;
      EntryDecodes(c, l)
  {
    var l := ColorLayout(bpp, wiring).value;
    if bpp == 16 && wiring == WiringRgb {
      assert l == Layout(Field(11, 5), Field(5, 6), Field(0, 5), Field(0, 0));
      Decodes565(c);
    } else if bpp == 16 && wiring == WiringRgb555 {
      assert l == Layout(Field(10, 5), Field(5, 5), Field(0, 5), Field(0, 0));
      DecodesRgb555(c);
    } else if bpp == 16 {
      assert l == Layout(Field(0, 5), Field(5, 5), Field(10, 5), Field(0, 0));
      DecodesBgr555(c);
    } else if wiring == WiringRgb {
      assert l.red == Field(16, 8) && l.green == Field(8, 8) && l.blue == Field(0, 8);
      DecodesRgb888(c, l.transp);
    } else {
      assert l.red == Field(0, 8) && l.green == Field(8, 8) && l.blue == Field(16, 8);
      DecodesBgr888(c, l.transp);
    }
  }

  /** Each channel of the entry built for `l` reads back as the top bits of its colour value. */
  predicate EntryDecodes(c: (bv32, bv32, bv32), l: Layout)
    requires Placeable(l)
  {
    var e := TrueColorEntry(c, l);
    FieldOf(e, l.red) == TopBits(c.0, l.red) && FieldOf(e, l.green) == TopBits(c.1, l.green) &&
    FieldOf(e, l.blue) == TopBits(c.2, l.blue)
  }

  lemma Decodes565(c: (bv32, bv32, bv32))
    ensures EntryDecodes(c, Layout(Field(11, 5), Field(5, 6), Field(0, 5), Field(0, 0)))
  {
  }

  lemma DecodesRgb555(c: (bv32, bv32, bv32))
    ensures EntryDecodes(c, Layout(Field(10, 5), Field(5, 5), Field(0, 5), Field(0, 0)))
  {
  }

  lemma DecodesBgr555(c: (bv32, bv32, bv32))
    ensures EntryDecodes(c, Layout(Field(0, 5), Field(5, 5), Field(10, 5), Field(0, 0)))
  {
  }

  lemma DecodesRgb888(c: (bv32, bv32, bv32), transp: Bitfield)
    ensures EntryDecodes(c, Layout(Field(16, 8), Field(8, 8), Field(0, 8), transp))
  {
  }

  lemma DecodesBgr888(c: (bv32, bv32, bv32), transp: Bitfield)
    ensures EntryDecodes(c, Layout(Field(0, 8), Field(8, 8), Field(16, 8), transp))
  {
  }

  /** The luminance setcolreg uses in grayscale mode: 0.299 R + 0.587 G + 0.114 B in 16-bit fixed point, in 32-bit arithmetic. */
  function GrayLevel(red: nat, green: nat, blue: nat): (g: nat)
    ensures g < 65536
  {
    Wrap32(19595 * red + 38470 * green + 7471 * blue) / 65536
  }

  /** The weights add up to one, so a grey stays the same grey. */
  lemma GrayOfGrey(c: nat)
    requires c < 65536
    ensures GrayLevel(c, c, c) == c
  {
    assert 19595 * c + 38470 * c + 7471 * c == c * 65536;
    WrapIdem(c * 65536);
    MulDivCancel(c, 65536);
  }

  /** For 16-bit colour values the sum does not wrap and the luminance lies between the darkest and the brightest channel. */
  lemma GrayBetween(red: nat, green: nat, blue: nat)
    requires red < 65536 && green < 65536 && blue < 65536
    ensures Min(red, Min(green, blue)) <= GrayLevel(red, green, blue) <= Max(red, Max(green, blue))
  {
    var lo := Min(red, Min(green, blue));
    var hi := Max(red, Max(green, blue));
    var s := 19595 * red + 38470 * green + 7471 * blue;
    assert 65536 * lo <= s <= 65536 * hi;
    WrapIdem(s);
    MulDivCancel(lo, 65536);
    MulDivCancel(hi, 65536);
    DivMono(65536 * lo, s, 65536);
    DivMono(s, 65536 * hi, 65536);
  }

  /** The colour values setcolreg programs: the luminance three times in grayscale mode. */
  function Channels(red: bv32, green: bv32, blue: bv32, grayscale: bool): (r: (bv32, bv32, bv32))
    ensures !grayscale ==> r == (red, green, blue)
    ensures grayscale ==> r.0 == r.1 == r.2
  {
    if grayscale then
      var g := GrayLevel(red as int, green as int, blue as int) as bv32;
      (g, g, g)
    else (red, green, blue)
  }

  /** A pseudo-colour CLUT entry: the top five bits of red, green and blue at bits 0, 5 and 10. */
  function PseudoColorValue(red: bv32, green: bv32, blue: bv32): bv32
  {
    ((red >> 11) & 0x001f) | ((green >> 6) & 0x03e0) | ((blue >> 1) & 0x7c00)
  }

  /** The CLUT entry keeps exactly the top five bits of each 16-bit channel. */
  lemma PseudoColorFields(red: bv32, green: bv32, blue: bv32)
    ensures var e := PseudoColorValue(red, green, blue);
      e & 0x1f == (red >> 11) & 0x1f && (e >> 5) & 0x1f == (green >> 11) & 0x1f &&
      (e >> 10) & 0x1f == (blue >> 11) & 0x1f && e < 0x8000
  {
  }

  /** atmel_lcdfb_blank's result: 1 asks the console for a soft blank, unknown modes are invalid. */
  function BlankReturn(mode: int): (r: int)
    ensures r == 1 <==> mode == FB_BLANK_NORMAL
    ensures r == -Code(EINVAL) <==> !(FB_BLANK_UNBLANK <= mode <= FB_BLANK_POWERDOWN)
    ensures r == 0 <==> mode in {FB_BLANK_UNBLANK, FB_BLANK_VSYNC_SUSPEND, FB_BLANK_HSYNC_SUSPEND, FB_BLANK_POWERDOWN}
  {
    if !(FB_BLANK_UNBLANK <= mode <= FB_BLANK_POWERDOWN) then -Code(EINVAL)
    else if mode == FB_BLANK_NORMAL then 1
    else 0
  }

  /** A colour register write. */
  datatype ClutWrite = ClutWrite(regno: nat, value: bv32)

  /**
   * One frame-buffer device (`struct fb_info` with its `struct
   * atmel_lcdfb_info`): the current screen, the fixed information, the
   * 16-entry pseudo palette, the colour registers written and the
   * controller layer behind it.
   */
  class Framebuffer {
    const hw: Hlcdc
    const pseudoPalette: array<bv32>
    /** The LCDC clock rate in Hz. */
    const clkRate: nat
    const wiring: Wiring
    /** The field maxima limit_screeninfo saturates timings at, when the controller has such a hook. */
    const limits: Option<FieldMax>
    var screen: VarScreen
    var fix: FixScreen
    var clut: seq<ClutWrite>

    /** The allocation part of probing: the video memory gets SmemLen bytes at `smemStart`. */
    constructor(hw: Hlcdc, clkRate: nat, wiring: Wiring, limits: Option<FieldMax>, initial: VarScreen,
                smemStart: nat, platformLen: nat)
      ensures this.hw == hw && this.clkRate == clkRate && this.wiring == wiring && this.limits == limits
      ensures screen == initial && clut == []
      ensures fix == FixScreen(smemStart, SmemLen(initial, platformLen), 0, VisualOf(initial.bitsPerPixel))
      ensures fresh(pseudoPalette) && pseudoPalette.Length == 16
    {
      this.hw := hw;
      this.clkRate := clkRate;
      this.wiring := wiring;
      this.limits := limits;
      screen := initial;
      fix := FixScreen(smemStart, SmemLen(initial, platformLen), 0, VisualOf(initial.bitsPerPixel));
      clut := [];
      pseudoPalette := new bv32[16](_ => 0);
    }

    /** Whether the frame of a virtual screen fits the video memory (a zero size means not yet allocated). */
    predicate FrameFits(xv: nat, yv: nat, bpp: nat)
      reads this
    {
      fix.smemLen == 0 || FrameBytes(xv, yv, bpp) <= fix.smemLen
    }

    /**
     * atmel_lcdfb_check_var: when the clock or the depth is missing, merge
     * in the nearest mode of the list (`chosen`, None when there is none;
     * a mode carries no depth, so a missing depth stays missing), refuse
     * a pixel clock faster than the LCDC clock, make the virtual screen at
     * least as large as the visible one, align widths to four pixels, clear
     * offsets and alpha, refuse a frame larger than the video memory,
     * saturate and floor the timings, and settle the channel layout of the
     * depth, refusing an unknown depth. Nothing in the device changes.
     */
    method CheckVar(v: VarScreen, chosen: Option<Videomode>) returns (ret: int, r: VarScreen)
      requires NeedsMode(v) && chosen.Some? ==> chosen.value.pixclock > 0
      ensures ret == 0 || ret == -Code(EINVAL)
      ensures ret == 0 ==> r.bitsPerPixel == v.bitsPerPixel && r.grayscale == v.grayscale && r.nonstd == v.nonstd
      ensures v.bitsPerPixel == 0 ==> ret != 0
      ensures NeedsMode(v) && chosen.None? ==> ret == -Code(EINVAL) && r == v
      ensures NeedsMode(v) ==> chosen.Some? || ret != 0
      ensures ret == 0 ==>
        var w := Requested(v, chosen);
        Picos2KHz(w.pixclock) <= clkRate / 1000 &&
        r.xres == LineAlign(w.xres) && r.xresVirtual == LineAlign(Max(w.xres, w.xresVirtual)) &&
        r.yres == w.yres && r.yresVirtual == Max(w.yres, w.yresVirtual) &&
        r.xoffset == 0 && r.yoffset == 0 &&
        r.bitsPerPixel == w.bitsPerPixel && r.pixclock == w.pixclock && r.sync == w.sync &&
        r.nonstd == w.nonstd && r.grayscale == w.grayscale &&
        ColorLayout(w.bitsPerPixel, wiring) == Some(ScreenLayout(r))
      ensures ret == 0 ==> r.xres % 4 == 0 && r.xres <= r.xresVirtual && r.yres <= r.yresVirtual
      ensures ret == 0 ==> FrameFits(r.xresVirtual, r.yresVirtual, r.bitsPerPixel)
      ensures ret == 0 ==> r.vsyncLen >= 1 && r.hsyncLen >= 1 && r.leftMargin >= 1 && r.rightMargin >= 1
      ensures ret == 0 && limits.Some? ==>
        var m := limits.value;
        r.vsyncLen <= m.vspw + 1 && r.hsyncLen <= m.hspw + 1 && r.upperMargin <= m.vbpw &&
        r.lowerMargin <= m.vfpw + 1 && r.leftMargin <= m.hbpw + 1 && r.rightMargin <= m.hfpw + 1
      ensures !NeedsMode(v) || chosen.Some? ==>
        var w := Requested(v, chosen);
        (ret == 0 <==>
          Picos2KHz(w.pixclock) <= clkRate / 1000 &&
          FrameFits(LineAlign(Max(w.xres, w.xresVirtual)), Max(w.yres, w.yresVirtual), w.bitsPerPixel) &&
          ColorLayout(w.bitsPerPixel, wiring).Some?)
    {
      r := v;
      if NeedsMode(r) {
        if chosen.None? {
          return -Code(EINVAL), r;
        }
        r := VideomodeToVar(r, chosen.value);
      }
      if Picos2KHz(r.pixclock) > clkRate / 1000 {
        return -Code(EINVAL), r;
      }
      r := FitVirtual(r);
      if fix.smemLen != 0 && FrameBytes(r.xresVirtual, r.yresVirtual, r.bitsPerPixel) > fix.smemLen {
        return -Code(EINVAL), r;
      }
      var ok;
      ok, r := Settle(r, limits, wiring);
      ret := if ok then 0 else -Code(EINVAL);
    }

    /**
     * atmel_lcdfb_set_par: stop the controller without waiting, choose the
     * visual and the line length, program the layer (the base layer
     * rewrites the pixel clock to the one it can make), point its DMA at
     * the screen, and start the controller again. Only the base layer
     * starts and stops.
     */
    method SetPar() returns (ret: int)
      requires hw.layer == BaseLayer ==> 0 < screen.pixclock <= 1000000000
      modifies this`fix, this`screen, hw`log, hw`desc
      ensures ret == 0
      ensures fix == old(fix).(visual := VisualOf(screen.bitsPerPixel),
                               lineLength := LineLength(screen.xresVirtual, screen.bitsPerPixel))
      ensures hw.layer == BaseLayer ==> screen == old(screen).(pixclock := BasePixclock(old(screen), clkRate))
      ensures hw.layer == OverlayLayer ==> screen == old(screen)
      ensures hw.desc == DmaDesc(DmaAddress(fix.smemStart, fix.lineLength, screen), DescCtrl(hw.layer), hw.descPhys)
      ensures hw.layer == BaseLayer ==>
        hw.log == old(hw.log) + StopEvents(true) + hw.BaseSetupEvents(old(screen), clkRate) +
                  DmaEvents(hw.layer, hw.desc) + StartEvents()
      ensures hw.layer == OverlayLayer ==>
        hw.log == old(hw.log) + OverlaySetupEvents(screen) + DmaEvents(hw.layer, hw.desc)
    {
      if hw.layer == BaseLayer {
        hw.Stop(true);
      }
      fix := fix.(visual := VisualOf(screen.bitsPerPixel),
                  lineLength := LineLength(screen.xresVirtual, screen.bitsPerPixel));
      if hw.layer == BaseLayer {
        var _, pixclock := hw.SetupCoreBase(screen, clkRate);
        screen := screen.(pixclock := pixclock);
      } else {
        var _ := hw.SetupCoreOvl(screen);
      }
      hw.UpdateDma(fix.smemStart, fix.lineLength, screen);
      if hw.layer == BaseLayer {
        hw.Start();
      }
      ret := 0;
    }

    /**
     * atmel_lcdfb_setcolreg: in true colour one of the 16 pseudo-palette
     * entries gets the channels placed by the screen's layout; in pseudo
     * colour one of the 256 colour registers gets a 5-5-5 value; in
     * monochrome one of two registers gets black or white. Any other
     * register number is refused with 1 and changes nothing.
     */
    method SetColReg(regno: nat, red: bv32, green: bv32, blue: bv32, transp: bv32) returns (ret: int)
      requires pseudoPalette.Length == 16
      requires fix.visual == TrueColor ==> Placeable(ScreenLayout(screen))
      modifies pseudoPalette, this`clut
      ensures ret == 0 <==> regno < PaletteSize(fix.visual)
      ensures ret == 0 || ret == 1
      ensures var c := Channels(red, green, blue, screen.grayscale != 0);
        fix.visual == TrueColor && regno < 16 ==>
          pseudoPalette[..] == old(pseudoPalette[..])[regno := TrueColorEntry(c, ScreenLayout(screen))]
      ensures fix.visual != TrueColor || regno >= 16 ==> pseudoPalette[..] == old(pseudoPalette[..])
      ensures var c := Channels(red, green, blue, screen.grayscale != 0);
        fix.visual == PseudoColor && regno < 256 ==>
          clut == old(clut) + [ClutWrite(regno, PseudoColorValue(c.0, c.1, c.2))]
      ensures fix.visual == Mono01 && regno < 2 ==>
          clut == old(clut) + [ClutWrite(regno, if regno == 0 then 0x00 else 0x1f)]
      ensures fix.visual == TrueColor || regno >= PaletteSize(fix.visual) ==> clut == old(clut)
    {
      var c := Channels(red, green, blue, screen.grayscale != 0);
      ret := 1;
      match fix.visual
      case TrueColor =>
        if regno < 16 {
          pseudoPalette[regno] := TrueColorEntry(c, ScreenLayout(screen));
          ret := 0;
        }
      case PseudoColor =>
        if regno < 256 {
          clut := clut + [ClutWrite(regno, PseudoColorValue(c.0, c.1, c.2))];
          ret := 0;
        }
      case Mono01 =>
        if regno < 2 {
          clut := clut + [ClutWrite(regno, if regno == 0 then 0x00 else 0x1f)];
          ret := 0;
        }
    }

    /** atmel_lcdfb_pan_display: point the layer's DMA at the new offsets. */
    method PanDisplay(v: VarScreen) returns (ret: int)
      modifies hw`log, hw`desc
      ensures ret == 0
      ensures hw.desc == DmaDesc(DmaAddress(fix.smemStart, fix.lineLength, v), DescCtrl(hw.layer), hw.descPhys)
      ensures hw.log == old(hw.log) + DmaEvents(hw.layer, hw.desc)
    {
      hw.UpdateDma(fix.smemStart, fix.lineLength, v);
      ret := 0;
    }

    /**
     * atmel_lcdfb_blank: unblanking (or a normal blank, which the console
     * finishes in software) starts the controller, powering down stops it
     * without waiting, the sync suspend modes do nothing.
     */
    method Blank(mode: int) returns (ret: int)
      modifies hw`log
      ensures ret == BlankReturn(mode)
      ensures hw.layer == BaseLayer && mode in {FB_BLANK_UNBLANK, FB_BLANK_NORMAL} ==> hw.log == old(hw.log) + StartEvents()
      ensures hw.layer == BaseLayer && mode == FB_BLANK_POWERDOWN ==> hw.log == old(hw.log) + StopEvents(true)
      ensures hw.layer == OverlayLayer || mode !in {FB_BLANK_UNBLANK, FB_BLANK_NORMAL, FB_BLANK_POWERDOWN} ==>
        hw.log == old(hw.log)
    {
      if mode == FB_BLANK_UNBLANK || mode == FB_BLANK_NORMAL {
        if hw.layer == BaseLayer {
          hw.Start();
        }
      } else if mode == FB_BLANK_VSYNC_SUSPEND || mode == FB_BLANK_HSYNC_SUSPEND {
      } else if mode == FB_BLANK_POWERDOWN {
        if hw.layer == BaseLayer {
          hw.Stop(true);
        }
      } else {
        return -Code(EINVAL);
      }
      ret := if mode == FB_BLANK_NORMAL then 1 else 0;
    }

    /** atmel_lcdfb_reset: stop (waiting for the DMA) and start again, for a layer that can. */
    method Reset()
      modifies hw`log
      ensures hw.layer == BaseLayer ==> hw.log == old(hw.log) + StopEvents(false) + StartEvents()
      ensures hw.layer == OverlayLayer ==> hw.log == old(hw.log)
    {
      if hw.layer == BaseLayer {
        hw.Stop(false);
        hw.Start();
      }
    }
  }
}
