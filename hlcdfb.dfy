// The HLCDC (high-end LCD controller) layer of the Atmel frame-buffer driver
// (drivers/video/atmel_hlcdfb.c): the base and overlay DMA descriptors, the
// pixel-clock divider and display timing programmed into LCDCFG0..5, the
// overlay position decoded from `nonstd`, the ordered start/stop of the
// controller signals, the interrupt classification and suspend/resume.
//
// The register header mach/atmel_hlcdc.h is not part of this model: every
// register write is an event naming the register and the field values
// written, and the field maxima used to saturate timings are parameters.
// Status polling loops are events too: each records the condition the
// driver waits for, and the model assumes the wait ends.
module Hlcdfb {
  import opened Common
  import opened Fb

  /** The two kinds of frame-buffer device the driver serves. */
  datatype Layer = BaseLayer | OverlayLayer

  /** The controller signals enabled through LCDEN and disabled through LCDDIS. */
  datatype Signal = ClkSignal | SyncSignal | DispSignal | PwmSignal

  /** The pixel formats of BASECFG1/OVRCFG1; NoMode is the value 0 written for an unsupported depth. */
  datatype RgbMode = Clut(depth: nat) | Rgb444 | Argb4444 | Rgb565 | Rgb666Packed | Rgb888Packed | Argb8888 | NoMode

  /** OVRCFG9: all zero, or the blending setup with local (per-pixel) or global alpha. */
  datatype Cfg9 = Cfg9Zero | Cfg9Blend(localAlpha: bool)

  datatype ClockId = BusClock | LcdcClock

  /** The DMA control word of a descriptor: ADDIEN|DSCRIEN|DMAIEN|DFETCH of the layer's channel. */
  datatype DescCtrl = DescCtrl(layer: Layer)

  /** `struct atmel_hlcd_dma_desc`. */
  datatype DmaDesc = DmaDesc(address: int, control: DescCtrl, next: int)

  /** What the driver does to the controller, in order. */
  datatype LcdcEvent =
    | AwaitSipsts
    | Enable(signal: Signal)
    | Disable(signal: Signal)
    | AwaitStatus(status: Signal, on: bool)
    | AwaitBaseDmaDone
    | Cfg0SystemClock
    | Cfg0ClkDiv(clkdiv: int)
    | Cfg5(lcdcon2: int, guardTime: int, hspol: bool, vspol: bool, copied: bv32)
    | Cfg1(vspw: int, hspw: int)
    | Cfg2(vbpw: int, vfpw: int)
    | Cfg3(hbpw: int, hfpw: int)
    | Cfg4(rpf: int, ppl: int)
    | LayerCfg0(layer: Layer)
    | LayerMode(layer: Layer, mode: RgbMode)
    | BaseCfg2Zero
    | BaseCfg3Zero
    | BaseCfg4Dma
    | OvrPosition(xpos: int, ypos: int)
    | OvrSize(xsize: int, ysize: int)
    | OvrCfg9(cfg9: Cfg9)
    | IrqDisableAll
    | BaseIrqDisableAll
    | BaseIrqEnableOverflow
    | IrqEnableFifoBaseHeo
    | DmaAddr(layer: Layer, addr: int)
    | DmaCtrl(layer: Layer, ctrl: DescCtrl)
    | DmaNext(layer: Layer, next: int)
    | DmaChannelEnable(layer: Layer)
    | ClockEnable(clock: ClockId)
    | ClockDisable(clock: ClockId)
    | PanelPower(on: bool)

  /** The address the layer's DMA starts from: the visible origin, rounded down to a word. */
  function DmaAddress(smemStart: nat, lineLength: nat, v: VarScreen): (a: int)
    ensures IsU32(a) && a % 4 == 0
    ensures var raw := OriginOffset(smemStart, Wrap32(v.yoffset * lineLength), Wrap32(v.xoffset * v.bitsPerPixel));
      a <= raw < a + 4
  {
    var raw := OriginOffset(smemStart, Wrap32(v.yoffset * lineLength), Wrap32(v.xoffset * v.bitsPerPixel));
    raw - raw % 4
  }

  /** The byte address of the visible origin, from the line offset and the pixel offset in bits, in 32-bit arithmetic. */
  function OriginOffset(smemStart: nat, lineBytes: nat, pixelBits: nat): int
  {
    Wrap32(smemStart + lineBytes + pixelBits / 8)
  }

  /** Without wrap-around and with a word-aligned origin, the DMA starts exactly at the visible origin. */
  lemma DmaAddressExact(smemStart: nat, lineLength: nat, v: VarScreen)
    requires v.yoffset * lineLength < TWO32 && v.xoffset * v.bitsPerPixel < TWO32
    requires smemStart + v.yoffset * lineLength + v.xoffset * v.bitsPerPixel / 8 < TWO32
    requires (smemStart + v.yoffset * lineLength + v.xoffset * v.bitsPerPixel / 8) % 4 == 0
    ensures DmaAddress(smemStart, lineLength, v) == smemStart + v.yoffset * lineLength + v.xoffset * v.bitsPerPixel / 8
  {
    var lineBytes := v.yoffset * lineLength;
    var pixelBits := v.xoffset * v.bitsPerPixel;
    MulNonneg(v.yoffset, lineLength);
    MulNonneg(v.xoffset, v.bitsPerPixel);
    WrapIdem(lineBytes);
    WrapIdem(pixelBits);
    WrapIdem(smemStart + lineBytes + pixelBits / 8);
    assert OriginOffset(smemStart, lineBytes, pixelBits) == smemStart + lineBytes + pixelBits / 8;
  }

  /** The colour depths the controller can scan out. */
  predicate SupportedDepth(bpp: nat)
  {
    bpp in {1, 2, 4, 8, 12, 16, 18, 24, 32}
  }

  /** The depth a pixel format stores, 0 for none. */
  function ModeDepth(m: RgbMode): nat
  {
    match m
    case Clut(d) => d
    case Rgb444 => 12
    case Argb4444 => 16
    case Rgb565 => 16
    case Rgb666Packed => 18
    case Rgb888Packed => 24
    case Argb8888 => 32
    case NoMode => 0
  }

  /**
   * atmel_hlcdfb_get_rgbmode: palette modes up to 8 bpp, ARGB4444 for 16
   * bpp with an alpha channel and RGB565 without, fixed formats for 12, 18,
   * 24 and 32 bpp, and nothing for any other depth.
   */
  function GetRgbMode(bpp: nat, transpOffset: bv32): (m: RgbMode)
    ensures m == NoMode <==> !SupportedDepth(bpp)
    ensures m != NoMode ==> ModeDepth(m) == bpp
    ensures m.Clut? <==> bpp in {1, 2, 4, 8}
    ensures bpp == 16 ==> (m == Argb4444 <==> transpOffset != 0)
  {
    if bpp in {1, 2, 4, 8} then Clut(bpp)
    else if bpp == 12 then Rgb444
    else if bpp == 16 then (if transpOffset != 0 then Argb4444 else Rgb565)
    else if bpp == 18 then Rgb666Packed
    else if bpp == 24 then Rgb888Packed
    else if bpp == 32 then Argb8888
    else NoMode
  }

  /** A format determines its depth: two depths never share a format. */
  lemma RgbModeInjective(b1: nat, t1: bv32, b2: nat, t2: bv32)
    requires SupportedDepth(b1) && SupportedDepth(b2)
    requires GetRgbMode(b1, t1) == GetRgbMode(b2, t2)
    ensures b1 == b2
  {
    assert ModeDepth(GetRgbMode(b1, t1)) == b1;
  }

  /** DIV_ROUND_CLOSEST for unsigned operands. */
  function DivRoundClosest(x: nat, d: nat): (r: nat)
    requires d > 0
    ensures r * d <= x + d / 2 < (r + 1) * d
  {
    (x + d / 2) / d
  }

  /** How LCDCFG0 is programmed: from the system clock, or through the divider with the pixel clock rewritten. */
  datatype ClockSetup = SystemClock | Divided(divisor: nat, newPixclock: nat)

  /**
   * The divider the driver programs: the nearest whole ratio of the LCDC
   * clock to the requested pixel clock. A ratio below 1 selects the system
   * clock and keeps the pixel clock; otherwise the pixel clock becomes the
   * period of the divided clock. A period longer than a second (in
   * picoseconds) gives a zero PICOS2KHZ, a division by zero in the source.
   */
  function PixelClock(clkKhz: nat, pixclock: nat): (c: ClockSetup)
    requires 0 < pixclock <= 1000000000
    ensures c.SystemClock? <==> DivRoundClosest(clkKhz, Picos2KHz(pixclock)) < 1
    ensures c.Divided? ==>
      c.divisor == DivRoundClosest(clkKhz, Picos2KHz(pixclock)) >= 1 &&
      1 <= clkKhz / c.divisor && c.newPixclock == KHz2Picos(clkKhz / c.divisor)
  {
    var d := Picos2KHz(pixclock);
    var value := DivRoundClosest(clkKhz, d);
    if value < 1 then SystemClock
    else
      DividerBelowClock(clkKhz, d);
      Divided(value, KHz2Picos(clkKhz / value))
  }

  /** A divisor of at least 1 never exceeds the clock it divides, so the divided clock is at least 1 kHz. */
  lemma DividerBelowClock(x: nat, d: nat)
    requires d > 0 && DivRoundClosest(x, d) >= 1
    ensures 1 <= x / DivRoundClosest(x, d)
  {
    var r := DivRoundClosest(x, d);
    assert r <= x by {
      if r > x {
        MulMono(x + 1, r, d);
        assert (x + 1) * d <= r * d;
        assert x * d + d <= x + d / 2;
        MulMono(1, d, x);
      }
    }
  }

  /** The CLKDIV field written: the divisor less 2 as an unsigned 32-bit value. */
  function ClkDivField(c: ClockSetup): int
    requires c.Divided?
  {
    Wrap32(c.divisor - 2)
  }

  /** A divisor of 1 wraps the CLKDIV field to all ones. */
  lemma DivisorOneWraps()
    ensures ClkDivField(Divided(1, 0)) == 0xFFFF_FFFF
  {
  }

  /** The LCDCFG0 write for a clock setup. */
  function ClockEvents(c: ClockSetup): seq<LcdcEvent>
  {
    match c
    case SystemClock => [AwaitSipsts, Cfg0SystemClock]
    case Divided(_, _) => [AwaitSipsts, Cfg0ClkDiv(ClkDivField(c))]
  }

  /** The timing fields of LCDCFG1..4. */
  datatype TimingRegs = TimingRegs(vspw: int, hspw: int, vbpw: int, vfpw: int, hbpw: int, hfpw: int, rpf: int, ppl: int)

  /**
   * The display timing encoded as setup_core_base writes it: pulse widths,
   * front porches, the left margin and the size less one, the upper margin
   * as it is; unsigned, so a zero wraps.
   */
  function EncodeTiming(v: VarScreen): (t: TimingRegs)
    ensures v.vsyncLen >= 1 && IsU32(v.vsyncLen) ==> t.vspw == v.vsyncLen - 1
    ensures v.upperMargin < TWO32 ==> t.vbpw == v.upperMargin
    ensures v.lowerMargin == 0 ==> t.vfpw == 0xFFFF_FFFF
  {
    TimingRegs(
      Wrap32(v.vsyncLen - 1), Wrap32(v.hsyncLen - 1),
      Wrap32(v.upperMargin), Wrap32(v.lowerMargin - 1),
      Wrap32(v.leftMargin - 1), Wrap32(v.rightMargin - 1),
      Wrap32(v.yres - 1), Wrap32(v.xres - 1))
  }

  /** What a display reads back from the timing registers. */
  function DecodeTiming(t: TimingRegs): (r: (nat, nat, nat, nat, nat, nat, nat, nat))
    requires t.vspw >= 0 && t.hspw >= 0 && t.vbpw >= 0 && t.vfpw >= 0
    requires t.hbpw >= 0 && t.hfpw >= 0 && t.rpf >= 0 && t.ppl >= 0
  {
    (t.vspw + 1, t.hspw + 1, t.vbpw, t.vfpw + 1, t.hbpw + 1, t.hfpw + 1, t.rpf + 1, t.ppl + 1)
  }

  /** The timing fields of a screen that encode without wrapping. */
  predicate TimingEncodable(v: VarScreen)
  {
    1 <= v.vsyncLen < TWO32 && 1 <= v.hsyncLen < TWO32 && v.upperMargin < TWO32 && 1 <= v.lowerMargin < TWO32 &&
    1 <= v.leftMargin < TWO32 && 1 <= v.rightMargin < TWO32 && 1 <= v.yres < TWO32 && 1 <= v.xres < TWO32
  }

  /** The registers give back the timing they encode. */
  lemma TimingRoundTrip(v: VarScreen)
    requires TimingEncodable(v)
    ensures var t := EncodeTiming(v);
      t.vspw >= 0 && t.hspw >= 0 && t.vbpw >= 0 && t.vfpw >= 0 && t.hbpw >= 0 && t.hfpw >= 0 && t.rpf >= 0 && t.ppl >= 0 &&
      DecodeTiming(t) == (v.vsyncLen, v.hsyncLen, v.upperMargin, v.lowerMargin,
                          v.leftMargin, v.rightMargin, v.yres, v.xres)
  {
    WrapIdem(v.vsyncLen - 1);
    WrapIdem(v.hsyncLen - 1);
    WrapIdem(v.upperMargin);
    WrapIdem(v.lowerMargin - 1);
    WrapIdem(v.leftMargin - 1);
    WrapIdem(v.rightMargin - 1);
    WrapIdem(v.yres - 1);
    WrapIdem(v.xres - 1);
  }

  /** The LCDCFG1..4 writes, each after the clock-domain synchronisation wait. */
  function TimingEvents(t: TimingRegs): seq<LcdcEvent>
  {
    [AwaitSipsts, Cfg1(t.vspw, t.hspw), AwaitSipsts, Cfg2(t.vbpw, t.vfpw),
     AwaitSipsts, Cfg3(t.hbpw, t.hfpw), AwaitSipsts, Cfg4(t.rpf, t.ppl)]
  }

  /**
   * The largest value each timing field holds (its mask shifted down). The
   * horizontal back and front porch fields differ between the SAM9X5 and
   * the later controllers.
   */
  datatype FieldMax = FieldMax(vspw: nat, vfpw: nat, vbpw: nat, hspw: nat, hbpw: nat, hfpw: nat)

  /** The limits limit_screeninfo uses on the chip it runs on. */
  function ChipFieldMax(sam9x5: bool, sam9x5Max: FieldMax, lcdc2Hbpw: nat, lcdc2Hfpw: nat): (m: FieldMax)
    ensures sam9x5 ==> m == sam9x5Max
    ensures !sam9x5 ==> m == sam9x5Max.(hbpw := lcdc2Hbpw, hfpw := lcdc2Hfpw)
  {
    if sam9x5 then sam9x5Max else sam9x5Max.(hbpw := lcdc2Hbpw, hfpw := lcdc2Hfpw)
  }

  /**
   * atmelfb_limit_screeninfo as written: each timing saturates at a field
   * maximum, but the upper margin is bounded by the vertical front porch
   * field, the lower margin by the back porch field, the right margin by
   * the horizontal back porch and the left margin by the front porch.
   */
  function LimitScreeninfoAsWritten(v: VarScreen, m: FieldMax): (r: VarScreen)
    ensures r == v.(vsyncLen := Min(v.vsyncLen, m.vspw + 1), upperMargin := Min(v.upperMargin, m.vfpw + 1),
                    lowerMargin := Min(v.lowerMargin, m.vbpw), rightMargin := Min(v.rightMargin, m.hbpw + 1),
                    hsyncLen := Min(v.hsyncLen, m.hspw + 1), leftMargin := Min(v.leftMargin, m.hfpw + 1))
  {
    v.(vsyncLen := Min(v.vsyncLen, m.vspw + 1), upperMargin := Min(v.upperMargin, m.vfpw + 1),
       lowerMargin := Min(v.lowerMargin, m.vbpw), rightMargin := Min(v.rightMargin, m.hbpw + 1),
       hsyncLen := Min(v.hsyncLen, m.hspw + 1), leftMargin := Min(v.leftMargin, m.hfpw + 1))
  }

  /**
   * With equally wide vertical porch fields, an upper margin one above the
   * field maximum passes the limit as written, and is then encoded
   * unchanged into the back porch field, where it does not fit.
   */
  lemma UpperMarginOverflowsAsWritten(v: VarScreen, m: FieldMax)
    requires m.vbpw == m.vfpw && m.vfpw + 1 < TWO32 && v.upperMargin == m.vfpw + 1
    ensures EncodeTiming(LimitScreeninfoAsWritten(v, m)).vbpw == m.vbpw + 1
  {
  }

  /**
   * atmelfb_limit_screeninfo with every timing saturated at the maximum of
   * the field it is encoded into: pulse widths and the margins written less
   * one at the field maximum plus one, the upper margin (written as it is)
   * at the field maximum. Nothing else changes.
   */
  function LimitScreeninfo(v: VarScreen, m: FieldMax): (r: VarScreen)
    ensures r.vsyncLen <= v.vsyncLen && r.hsyncLen <= v.hsyncLen && r.upperMargin <= v.upperMargin
    ensures r.lowerMargin <= v.lowerMargin && r.leftMargin <= v.leftMargin && r.rightMargin <= v.rightMargin
    ensures r.vsyncLen <= m.vspw + 1 && r.hsyncLen <= m.hspw + 1 && r.upperMargin <= m.vbpw
    ensures r.lowerMargin <= m.vfpw + 1 && r.leftMargin <= m.hbpw + 1 && r.rightMargin <= m.hfpw + 1
    ensures r.(vsyncLen := v.vsyncLen, hsyncLen := v.hsyncLen, upperMargin := v.upperMargin,
               lowerMargin := v.lowerMargin, leftMargin := v.leftMargin, rightMargin := v.rightMargin) == v
  {
    v.(vsyncLen := Min(v.vsyncLen, m.vspw + 1), upperMargin := Min(v.upperMargin, m.vbpw),
       lowerMargin := Min(v.lowerMargin, m.vfpw + 1), rightMargin := Min(v.rightMargin, m.hfpw + 1),
       hsyncLen := Min(v.hsyncLen, m.hspw + 1), leftMargin := Min(v.leftMargin, m.hbpw + 1))
  }

  /** Saturating twice is saturating once, and a timing already within the limits is left alone. */
  lemma LimitIdempotent(v: VarScreen, m: FieldMax)
    ensures LimitScreeninfo(LimitScreeninfo(v, m), m) == LimitScreeninfo(v, m)
    ensures (v.vsyncLen <= m.vspw + 1 && v.hsyncLen <= m.hspw + 1 && v.upperMargin <= m.vbpw &&
             v.lowerMargin <= m.vfpw + 1 && v.leftMargin <= m.hbpw + 1 && v.rightMargin <= m.hfpw + 1) ==>
      LimitScreeninfo(v, m) == v
  {
  }

  /**
   * After saturation, and with the timings check_var forces to be at least
   * one, every encoded timing field fits within its field maximum.
   */
  lemma LimitedTimingFits(v: VarScreen, m: FieldMax)
    requires m.vspw + 1 < TWO32 && m.hspw + 1 < TWO32 && m.vbpw < TWO32
    requires m.vfpw + 1 < TWO32 && m.hbpw + 1 < TWO32 && m.hfpw + 1 < TWO32
    requires var r := LimitScreeninfo(v, m);
      r.vsyncLen >= 1 && r.hsyncLen >= 1 && r.lowerMargin >= 1 && r.leftMargin >= 1 && r.rightMargin >= 1
    ensures var t := EncodeTiming(LimitScreeninfo(v, m));
      t.vspw <= m.vspw && t.hspw <= m.hspw && t.vbpw <= m.vbpw &&
      t.vfpw <= m.vfpw && t.hbpw <= m.hbpw && t.hfpw <= m.hfpw
  {
    var r := LimitScreeninfo(v, m);
    WrapIdem(r.vsyncLen - 1);
    WrapIdem(r.hsyncLen - 1);
    WrapIdem(r.upperMargin);
    WrapIdem(r.lowerMargin - 1);
    WrapIdem(r.leftMargin - 1);
    WrapIdem(r.rightMargin - 1);
  }

  /** The overlay window and blending that setup_core_ovl derives from `nonstd`. */
  datatype OvlConfig = OvlConfig(xpos: int, ypos: int, xsize: int, ysize: int, cfg9: Cfg9)

  /**
   * setup_core_ovl's decoding: with bit 31 of `nonstd` set, the position is
   * bits 19..10 and 9..0, the size is the resolution less one (0 for an
   * empty axis) and the blending uses the alpha channel when the format has
   * one, a global alpha otherwise; with bit 31 clear everything is zero.
   */
  function OvlConfigOf(v: VarScreen): (c: OvlConfig)
    ensures v.nonstd >> 31 == 0 ==> c == OvlConfig(0, 0, 0, 0, Cfg9Zero)
    ensures v.nonstd >> 31 != 0 ==>
      0 <= c.xpos < 1024 && 0 <= c.ypos < 1024 &&
      c.xsize == (if v.xres == 0 then 0 else v.xres - 1) && c.ysize == (if v.yres == 0 then 0 else v.yres - 1) &&
      c.cfg9 == Cfg9Blend(v.transp.offset != 0)
  {
    if v.nonstd >> 31 != 0 then
      OvlConfig(((v.nonstd >> 10) & 0x3ff) as int, (v.nonstd & 0x3ff) as int,
                if v.xres != 0 then v.xres - 1 else 0, if v.yres != 0 then v.yres - 1 else 0,
                Cfg9Blend(v.transp.offset != 0))
    else OvlConfig(0, 0, 0, 0, Cfg9Zero)
  }

  /** The `nonstd` value that places an overlay at (x, y). */
  function OvlNonstd(x: bv32, y: bv32): bv32
  {
    0x8000_0000 | (x << 10) | y
  }

  /** The position fields of an overlay `nonstd` value. */
  lemma NonstdFields(x: bv32, y: bv32)
    requires x < 1024 && y < 1024
    ensures OvlNonstd(x, y) >> 31 != 0
    ensures (OvlNonstd(x, y) >> 10) & 0x3ff == x && OvlNonstd(x, y) & 0x3ff == y
  {
  }

  /** Decoding gives back any position that fits its ten bits. */
  lemma OvlPositionRoundTrip(v: VarScreen, x: bv32, y: bv32)
    requires x < 1024 && y < 1024
    ensures var c := OvlConfigOf(v.(nonstd := OvlNonstd(x, y)));
      c.xpos == x as int && c.ypos == y as int
  {
    NonstdFields(x, y);
  }

  /** One step of start or stop: wait for synchronisation, write the enable or disable, wait for the status. */
  function Step(on: bool, s: Signal): seq<LcdcEvent>
  {
    [AwaitSipsts, if on then Enable(s) else Disable(s), AwaitStatus(s, on)]
  }

  /** atmel_hlcdfb_start: pixel clock, synchronisation, display, PWM. */
  function StartEvents(): seq<LcdcEvent>
  {
    Step(true, ClkSignal) + Step(true, SyncSignal) + Step(true, DispSignal) + Step(true, PwmSignal)
  }

  /**
   * atmel_hlcdfb_stop: display, synchronisation, pixel clock, PWM, then the
   * wait for the end of the base layer DMA unless told not to.
   */
  function StopEvents(nowait: bool): seq<LcdcEvent>
  {
    Step(false, DispSignal) + Step(false, SyncSignal) + Step(false, ClkSignal) + Step(false, PwmSignal) +
    (if nowait then [] else [AwaitBaseDmaDone])
  }

  /**
   * Start switches on every signal, the pixel clock before the display, and
   * each switch sits between a synchronisation wait and a status wait.
   */
  lemma StartOrder()
    ensures forall g: Signal :: Enable(g) in StartEvents()
    ensures var s := StartEvents();
      s[0] == AwaitSipsts && s[1] == Enable(ClkSignal) && s[2] == AwaitStatus(ClkSignal, true) &&
      s[7] == Enable(DispSignal) && s[10] == Enable(PwmSignal)
  {
    var s := StartEvents();
    forall g: Signal
      ensures Enable(g) in s
    {
      match g
      case ClkSignal => assert s[1] == Enable(g);
      case SyncSignal => assert s[4] == Enable(g);
      case DispSignal => assert s[7] == Enable(g);
      case PwmSignal => assert s[10] == Enable(g);
    }
  }

  /** Stop switches off every signal, the display before the pixel clock. */
  lemma StopOrder(nowait: bool)
    ensures forall g: Signal :: Disable(g) in StopEvents(nowait)
    ensures var t := StopEvents(nowait);
      t[0] == AwaitSipsts && t[1] == Disable(DispSignal) && t[2] == AwaitStatus(DispSignal, false) &&
      t[7] == Disable(ClkSignal) && t[10] == Disable(PwmSignal)
  {
    var t := StopEvents(nowait);
    forall g: Signal
      ensures Disable(g) in t
    {
      match g
      case ClkSignal => assert t[7] == Disable(g);
      case SyncSignal => assert t[4] == Disable(g);
      case DispSignal => assert t[1] == Disable(g);
      case PwmSignal => assert t[10] == Disable(g);
    }
  }

  /** The base layer setup after the timings: format, zeroed default colour, DMA, interrupts. */
  function BaseLayerEvents(mode: RgbMode): seq<LcdcEvent>
  {
    [LayerCfg0(BaseLayer), LayerMode(BaseLayer, mode), BaseCfg2Zero, BaseCfg3Zero, BaseCfg4Dma,
     IrqDisableAll, BaseIrqDisableAll, BaseIrqEnableOverflow, IrqEnableFifoBaseHeo]
  }

  /** The channel registers written from a descriptor: address, control, next descriptor, then the channel enable. */
  function DmaEvents(layer: Layer, d: DmaDesc): seq<LcdcEvent>
  {
    [DmaAddr(layer, d.address), DmaCtrl(layer, d.control), DmaNext(layer, d.next), DmaChannelEnable(layer)]
  }

  /** The interrupt status bits the handler looks at (LCDISR). */
  datatype IsrStatus = IsrStatus(heo: bool, fifoErr: bool, base: bool)

  datatype IrqReturn = IrqNone | IrqHandled

  /**
   * atmel_hlcdfb_interrupt: an interrupt of the HEO overlay is left to the
   * video driver; everything else is handled here, and only a base layer
   * interrupt makes it read the base layer status.
   */
  function Interrupt(status: IsrStatus): (r: (IrqReturn, bool))
    ensures r.0 == IrqNone <==> status.heo
    ensures r.1 <==> !status.heo && status.base
  {
    if status.heo then (IrqNone, false)
    else (IrqHandled, status.base)
  }

  /** atmel_lcdfb_start_clock: the bus clock (when there is one) before the LCDC clock. */
  function ClockOnEvents(busClk: bool): seq<LcdcEvent>
  {
    (if busClk then [ClockEnable(BusClock)] else []) + [ClockEnable(LcdcClock)]
  }

  /** atmel_lcdfb_stop_clock */
  function ClockOffEvents(busClk: bool): seq<LcdcEvent>
  {
    (if busClk then [ClockDisable(BusClock)] else []) + [ClockDisable(LcdcClock)]
  }

  /** The device name whose suspend and resume do anything. */
  const BASE_DEVICE: string := "atmel_hlcdfb_base"

  /** The panel power switch, when the board has one. */
  function PowerEvents(on: bool, powerControl: bool): seq<LcdcEvent>
  {
    if powerControl then [PanelPower(on)] else []
  }

  /** What atmel_hlcdfb_suspend does for the base device. */
  function SuspendEvents(busClk: bool, powerControl: bool): seq<LcdcEvent>
  {
    ([IrqDisableAll, BaseIrqDisableAll] + PowerEvents(false, powerControl) + StopEvents(true)) + ClockOffEvents(busClk)
  }

  /** What atmel_hlcdfb_resume does for the base device. */
  function ResumeEvents(busClk: bool, powerControl: bool): seq<LcdcEvent>
  {
    (ClockOnEvents(busClk) + StartEvents()) + (PowerEvents(true, powerControl) + [BaseIrqEnableOverflow, IrqEnableFifoBaseHeo])
  }

  /** Resume turns back on exactly the clocks suspend turned off. */
  lemma SuspendResumeClocks(busClk: bool, powerControl: bool, k: ClockId)
    ensures ClockDisable(k) in SuspendEvents(busClk, powerControl) <==> ClockEnable(k) in ResumeEvents(busClk, powerControl)
  {
    SignalStepsOnly(true);
    var front := [IrqDisableAll, BaseIrqDisableAll] + PowerEvents(false, powerControl);
    var back := PowerEvents(true, powerControl) + [BaseIrqEnableOverflow, IrqEnableFifoBaseHeo];
    assert ClockDisable(k) !in front + StopEvents(true);
    assert ClockEnable(k) !in StartEvents() + back;
    assert ClockDisable(k) in ClockOffEvents(busClk) <==> ClockEnable(k) in ClockOnEvents(busClk);
  }

  /** Resume powers the panel back up exactly when suspend powered it down. */
  lemma SuspendResumePower(busClk: bool, powerControl: bool)
    ensures PanelPower(false) in SuspendEvents(busClk, powerControl) <==> PanelPower(true) in ResumeEvents(busClk, powerControl)
  {
    SignalStepsOnly(true);
    assert PanelPower(false) !in StopEvents(true) + ClockOffEvents(busClk);
    assert PanelPower(true) !in ClockOnEvents(busClk) + StartEvents();
    assert PanelPower(false) in [IrqDisableAll, BaseIrqDisableAll] + PowerEvents(false, powerControl) <==> powerControl;
    assert PanelPower(true) in PowerEvents(true, powerControl) + [BaseIrqEnableOverflow, IrqEnableFifoBaseHeo] <==> powerControl;
  }

  /** Start and stop neither switch clocks nor panel power. */
  lemma SignalStepsOnly(nowait: bool)
    ensures forall e :: e in StartEvents() ==> e.AwaitSipsts? || e.Enable? || e.AwaitStatus?
    ensures forall e :: e in StopEvents(nowait) ==> e.AwaitSipsts? || e.Disable? || e.AwaitStatus? || e.AwaitBaseDmaDone?
  {
  }

  /** The pixel clock the screen gets from setup_core_base: the period of the divided clock, or the requested one. */
  function BasePixclock(v: VarScreen, clkRate: nat): nat
    requires 0 < v.pixclock <= 1000000000
  {
    var c := PixelClock(clkRate / 1000, v.pixclock);
    if c.Divided? then c.newPixclock else v.pixclock
  }

  /** What setup_core_ovl writes: burst setup, format, window position and size, blending. */
  function OverlaySetupEvents(v: VarScreen): seq<LcdcEvent>
  {
    var c := OvlConfigOf(v);
    [LayerCfg0(OverlayLayer), LayerMode(OverlayLayer, GetRgbMode(v.bitsPerPixel, v.transp.offset)),
     OvrPosition(c.xpos, c.ypos), OvrSize(c.xsize, c.ysize), OvrCfg9(c.cfg9)]
  }

  /**
   * The controller side of one frame-buffer device (`struct
   * atmel_lcdfb_info` as this file uses it): the events issued so far and
   * the DMA descriptor in memory, which loops to its own physical address.
   */
  class Hlcdc {
    const layer: Layer
    const deviceName: string
    const descPhys: nat
    const busClk: bool
    const powerControl: bool
    const defaultLcdcon2: int
    const guardTime: int
    /** The LCDCFG5 bits (VSPDLYS, VSPDLYE, DISPPOL, DITHER, DISPDLY, VSPSU, VSPHO) copied from `var.sync`. */
    const cfg5Copied: bv32
    var log: seq<LcdcEvent>
    var desc: DmaDesc

    constructor(layer: Layer, deviceName: string, descPhys: nat, busClk: bool, powerControl: bool,
                defaultLcdcon2: int, guardTime: int, cfg5Copied: bv32)
      ensures this.layer == layer && this.deviceName == deviceName && this.descPhys == descPhys
      ensures this.busClk == busClk && this.powerControl == powerControl
      ensures this.defaultLcdcon2 == defaultLcdcon2 && this.guardTime == guardTime && this.cfg5Copied == cfg5Copied
      ensures log == [] && desc == DmaDesc(0, DescCtrl(layer), 0)
    {
      this.layer := layer;
      this.deviceName := deviceName;
      this.descPhys := descPhys;
      this.busClk := busClk;
      this.powerControl := powerControl;
      this.defaultLcdcon2 := defaultLcdcon2;
      this.guardTime := guardTime;
      this.cfg5Copied := cfg5Copied;
      log := [];
      desc := DmaDesc(0, DescCtrl(layer), 0);
    }

    method Emit(events: seq<LcdcEvent>)
      modifies this`log
      ensures log == old(log) + events
    {
      log := log + events;
    }

    /**
     * atmel_hlcdfb_update_dma_base / _ovl: point the layer's looping
     * descriptor at the visible origin and hand it to the channel; the
     * ADDR and NEXT registers get the same values as the descriptor.
     */
    method UpdateDma(smemStart: nat, lineLength: nat, v: VarScreen)
      modifies this`log, this`desc
      ensures desc == DmaDesc(DmaAddress(smemStart, lineLength, v), DescCtrl(layer), descPhys)
      ensures log == old(log) + DmaEvents(layer, desc)
    {
      var dmaAddr := DmaAddress(smemStart, lineLength, v);
      desc := DmaDesc(dmaAddr, DescCtrl(layer), descPhys);
      log := log + [DmaAddr(layer, dmaAddr), DmaCtrl(layer, desc.control), DmaNext(layer, descPhys), DmaChannelEnable(layer)];
    }

    /** atmel_hlcdfb_start */
    method Start()
      modifies this`log
      ensures log == old(log) + StartEvents()
    {
      Emit(Step(true, ClkSignal));
      Emit(Step(true, SyncSignal));
      Emit(Step(true, DispSignal));
      Emit(Step(true, PwmSignal));
    }

    /** atmel_hlcdfb_stop; `nowait` is the ATMEL_LCDC_STOP_NOWAIT flag. */
    method Stop(nowait: bool)
      modifies this`log
      ensures log == old(log) + StopEvents(nowait)
    {
      Emit(Step(false, DispSignal));
      Emit(Step(false, SyncSignal));
      Emit(Step(false, ClkSignal));
      Emit(Step(false, PwmSignal));
      if !nowait {
        Emit([AwaitBaseDmaDone]);
      }
    }

    /** The LCDCFG5 value: the default, the guard time, inverted sync polarities, and the copied `sync` bits. */
    function Cfg5For(v: VarScreen): (e: LcdcEvent)
      reads this
      ensures e.Cfg5? && e.lcdcon2 == defaultLcdcon2 && e.guardTime == guardTime
      ensures e.hspol <==> v.sync & FB_SYNC_HOR_HIGH_ACT == 0
      ensures e.vspol <==> v.sync & FB_SYNC_VERT_HIGH_ACT == 0
      ensures e.copied & !cfg5Copied == 0
    {
      Cfg5(defaultLcdcon2, guardTime, v.sync & FB_SYNC_HOR_HIGH_ACT == 0, v.sync & FB_SYNC_VERT_HIGH_ACT == 0,
           v.sync & cfg5Copied)
    }

    /** What setup_core_base writes, in order. */
    function BaseSetupEvents(v: VarScreen, clkRate: nat): seq<LcdcEvent>
      requires 0 < v.pixclock <= 1000000000
      reads this
    {
      StopEvents(true) + ClockEvents(PixelClock(clkRate / 1000, v.pixclock)) + [AwaitSipsts, Cfg5For(v)] +
      TimingEvents(EncodeTiming(v)) + BaseLayerEvents(GetRgbMode(v.bitsPerPixel, v.transp.offset))
    }

    /**
     * atmel_hlcdfb_setup_core_base: stop without waiting, program the pixel
     * clock (returning the pixel clock the screen gets), LCDCFG5, the
     * timings, the base layer format and the interrupt masks.
     */
    method SetupCoreBase(v: VarScreen, clkRate: nat) returns (ret: int, pixclock: nat)
      requires 0 < v.pixclock <= 1000000000
      modifies this`log
      ensures ret == 0
      ensures pixclock == BasePixclock(v, clkRate)
      ensures log == old(log) + BaseSetupEvents(v, clkRate)
    {
      Stop(true);
      var c := PixelClock(clkRate / 1000, v.pixclock);
      Emit(ClockEvents(c));
      pixclock := if c.Divided? then c.newPixclock else v.pixclock;
      Emit([AwaitSipsts, Cfg5For(v)]);
      Emit(TimingEvents(EncodeTiming(v)));
      Emit(BaseLayerEvents(GetRgbMode(v.bitsPerPixel, v.transp.offset)));
      ret := 0;
    }

    /** atmel_hlcdfb_setup_core_ovl */
    method SetupCoreOvl(v: VarScreen) returns (ret: int)
      modifies this`log
      ensures ret == 0
      ensures log == old(log) + OverlaySetupEvents(v)
    {
      var c := OvlConfigOf(v);
      Emit([LayerCfg0(OverlayLayer), LayerMode(OverlayLayer, GetRgbMode(v.bitsPerPixel, v.transp.offset)),
            OvrPosition(c.xpos, c.ypos), OvrSize(c.xsize, c.ysize), OvrCfg9(c.cfg9)]);
      ret := 0;
    }

    /** atmel_hlcdfb_suspend: only the base device masks interrupts, powers the panel down and stops. */
    method Suspend() returns (ret: int)
      modifies this`log
      ensures ret == 0
      ensures deviceName != BASE_DEVICE ==> log == old(log)
      ensures deviceName == BASE_DEVICE ==> log == old(log) + SuspendEvents(busClk, powerControl)
    {
      if deviceName != BASE_DEVICE {
        return 0;
      }
      ghost var log0 := log;
      var masks := [IrqDisableAll, BaseIrqDisableAll] + PowerEvents(false, powerControl);
      Emit(masks);
      Stop(true);
      ghost var log1 := log;
      Emit(ClockOffEvents(busClk));
      assert log1 == log0 + (masks + StopEvents(true));
      ret := 0;
    }

    /** atmel_hlcdfb_resume: only the base device restarts. */
    method Resume() returns (ret: int)
      modifies this`log
      ensures ret == 0
      ensures deviceName != BASE_DEVICE ==> log == old(log)
      ensures deviceName == BASE_DEVICE ==> log == old(log) + ResumeEvents(busClk, powerControl)
    {
      if deviceName != BASE_DEVICE {
        return 0;
      }
      ghost var log0 := log;
      Emit(ClockOnEvents(busClk));
      Start();
      ghost var log1 := log;
      Emit(PowerEvents(true, powerControl) + [BaseIrqEnableOverflow, IrqEnableFifoBaseHeo]);
      assert log1 == log0 + (ClockOnEvents(busClk) + StartEvents());
      ret := 0;
    }
  }
}
