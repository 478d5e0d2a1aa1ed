// The HEO overlay channel of the at91sam9x5 video driver as an object: the
// configuration and hardware state machines, the two buffer slots, the DMA
// descriptors written into each shown buffer, and the log of register writes.
module HeoChannel {
  import opened Common
  import opened HeoRegs
  import opened HeoGeometry
  import opened HeoPipeline

  /** hwstate: whether the DMA channel has been started. */
  datatype HwState = Idle | Running

  /** cfgstate: GOOD, GOOD_LATCH (shadow registers await an update) or BAD (window unusable, channel off). */
  datatype CfgState = Good | GoodLatch | Bad

  /**
   * A value written to a register. Bits is a literal bit pattern; Val a
   * 32-bit number filling the whole register; Pair(flags, lo, hi) the word
   * flags | valtomask(lo, low field) | valtomask(hi, high field) of a
   * register with an X field and a Y field. Entries of the scaling
   * coefficient tables and of the colour-space matrix are written by
   * position, not by value.
   */
  datatype Word =
    | Bits(bits: bv32)
    | Val(v: int)
    | Pair(flags: bv32, lo: int, hi: int)
    | Coef(downscale: bool, index: nat)
    | Csc(index: nat)

  datatype RegWrite = RegWrite(offset: nat, value: Word)

  /** A buffer as videobuf2 hands it over: at least one plane, every plane a 32-bit bus address. */
  predicate WellFormedBuffer(vb: VideoBuffer)
  {
    0 < |vb.planes| && forall k :: 0 <= k < |vb.planes| ==> IsU32(vb.planes[k])
  }

  lemma AppendAssoc<T>(a: seq<T>, b: seq<T>, c: seq<T>, d: seq<T>)
    ensures a + b + c + d == a + (b + c + d)
  {
  }

  /** The DMA/ADD interrupts are masked when an idle channel is found stopped (handle_irqstat). */
  function IrqWrites(idle: bool, hw: HwRead): seq<RegWrite>
  {
    if idle && ChannelStopped(hw) then [RegWrite(HEOIDR, Bits(DMA_ADD_IRQS))] else []
  }

  // ---------------------------------------------------------------------
  // DMA descriptors

  /** One HEO DMA descriptor: three 32-bit words, followed by one word of padding. */
  datatype Descriptor = Descriptor(addr: int, ctrl: bv32, next: int)

  /**
   * The Y, U and V descriptors show_buf writes at byte offsets off, off + 16
   * and off + 32 of a buffer whose first plane is at bus address buffer. The
   * plane data starts at y, u and v. Every word is a u32.
   */
  function Descriptors(buffer: int, off: int, y: int, u: int, v: int): (ds: seq<Descriptor>)
    ensures |ds| == 3
  {
    [Descriptor(Wrap32(y), xCTRL_DFETCH, Wrap32(buffer + off)),
     Descriptor(Wrap32(u), xCTRL_DFETCH, Wrap32(buffer + off + 16)),
     Descriptor(Wrap32(v), xCTRL_DFETCH, Wrap32(buffer + off + 32))]
  }

  /**
   * The descriptors for buffer vb under the current format and plane
   * layout: they sit at the 64-byte aligned end of the 4:2:0 frame and point
   * at the first plane plus the Y offset and at the U and V planes plus
   * their offsets.
   */
  function BufDescriptors(vb: VideoBuffer, pix: PixFormat, yOff: int, uOff: int, vOff: int, uPlane: int, vPlane: int): (ds: seq<Descriptor>)
    requires 0 <= uPlane < |vb.planes| && 0 <= vPlane < |vb.planes|
    ensures |ds| == 3
  {
    Descriptors(vb.planes[0], DescOffset(pix), vb.planes[0] + yOff, vb.planes[uPlane] + uOff, vb.planes[vPlane] + vOff)
  }

  /** Buffer memory after the descriptors have been stored, keyed by (first plane address, byte offset). */
  function StoreDescriptors(mem: map<(int, int), Descriptor>, buffer: int, off: int, ds: seq<Descriptor>): map<(int, int), Descriptor>
    requires |ds| == 3
  {
    mem[(buffer, off) := ds[0]][(buffer, off + 16) := ds[1]][(buffer, off + 32) := ds[2]]
  }

  /** The descriptor at byte offset o of the buffer requests a fetch and links to its own bus address. */
  predicate SelfLinked(m: map<(int, int), Descriptor>, buffer: int, o: int)
  {
    (buffer, o) in m && m[(buffer, o)].next == Wrap32(buffer + o) && m[(buffer, o)].ctrl == xCTRL_DFETCH
  }

  /**
   * Each descriptor links to itself, so the DMA engine keeps fetching the
   * same frame until a new head is queued; the address words carry the
   * plane addresses, and the rest of memory is unchanged.
   */
  lemma DescriptorsSelfLoop(mem: map<(int, int), Descriptor>, buffer: int, off: int, y: int, u: int, v: int)
    ensures var m := StoreDescriptors(mem, buffer, off, Descriptors(buffer, off, y, u, v));
      SelfLinked(m, buffer, off) && SelfLinked(m, buffer, off + 16) && SelfLinked(m, buffer, off + 32)
    ensures var m := StoreDescriptors(mem, buffer, off, Descriptors(buffer, off, y, u, v));
      m[(buffer, off)].addr == Wrap32(y) && m[(buffer, off + 16)].addr == Wrap32(u) && m[(buffer, off + 32)].addr == Wrap32(v)
    ensures var m := StoreDescriptors(mem, buffer, off, Descriptors(buffer, off, y, u, v));
      forall key :: key in mem && key != (buffer, off) && key != (buffer, off + 16) && key != (buffer, off + 32) ==>
        key in m && m[key] == mem[key]
  {
    assert buffer + off + 16 == buffer + (off + 16) && buffer + off + 32 == buffer + (off + 32);
  }

  /** The HEOCHER word that starts the transfer: UPDATEEN when latched, then A2QEN or CHEN. */
  function StartCher(running: bool, latch: bool): bv32
  {
    var cher: bv32 := if latch then CHER_UPDATEEN else 0;
    if running then cher | CHER_A2QEN else cher | CHER_CHEN
  }

  /**
   * The register writes that start or re-queue the DMA once the descriptors
   * ds are in memory. A running channel gets the three descriptor addresses
   * as new heads and an add-to-queue request; an idle one gets each
   * descriptor loaded into ADDR/CTRL/NEXT and is enabled. A pending
   * configuration (GOOD_LATCH) adds UPDATEEN to the final write.
   */
  function StartWrites(running: bool, latch: bool, ds: seq<Descriptor>): (ws: seq<RegWrite>)
    requires |ds| == 3
    ensures |ws| == if running then 4 else 10
  {
    (if running then seq(3, i requires 0 <= i < 3 => HeadWrite(ds, i))
     else seq(9, i requires 0 <= i < 9 => LoadWrite(ds, i))) +
    [RegWrite(HEOCHER, Bits(StartCher(running, latch)))]
  }

  /** The i-th head write of a running channel: HEAD, UHEAD, VHEAD get each descriptor's address. */
  function HeadWrite(ds: seq<Descriptor>, i: nat): RegWrite
    requires |ds| == 3 && i < 3
  {
    if i == 0 then RegWrite(HEOHEAD, Val(ds[0].next))
    else if i == 1 then RegWrite(HEOUHEAD, Val(ds[1].next))
    else RegWrite(HEOVHEAD, Val(ds[2].next))
  }

  /** The i-th load write of an idle channel: ADDR, CTRL, NEXT of the Y, then the U, then the V plane. */
  function LoadWrite(ds: seq<Descriptor>, i: nat): RegWrite
    requires |ds| == 3 && i < 9
  {
    if i == 0 then RegWrite(HEOADDR, Val(ds[0].addr))
    else if i == 1 then RegWrite(HEOCTRL, Bits(ds[0].ctrl))
    else if i == 2 then RegWrite(HEONEXT, Val(ds[0].next))
    else if i == 3 then RegWrite(HEOUADDR, Val(ds[1].addr))
    else if i == 4 then RegWrite(HEOUCTRL, Bits(ds[1].ctrl))
    else if i == 5 then RegWrite(HEOUNEXT, Val(ds[1].next))
    else if i == 6 then RegWrite(HEOVADDR, Val(ds[2].addr))
    else if i == 7 then RegWrite(HEOVCTRL, Bits(ds[2].ctrl))
    else RegWrite(HEOVNEXT, Val(ds[2].next))
  }

  /**
   * What the start sequence does to the channel: the last write is to HEOCHER
   * and enables the channel (idle) or requests add-to-queue (running), with
   * UPDATEEN exactly when a configuration is pending. Every head or next
   * pointer it loads is the bus address of the descriptor it names, and
   * every address register gets the plane address.
   */
  lemma {:induction false} StartWritesMeaning(running: bool, latch: bool, buffer: int, off: int, y: int, u: int, v: int)
    ensures var ws := StartWrites(running, latch, Descriptors(buffer, off, y, u, v));
      var cher := ws[|ws| - 1];
      cher.offset == HEOCHER && cher.value.Bits? &&
      (cher.value.bits & CHER_UPDATEEN != 0 <==> latch) &&
      (cher.value.bits & CHER_A2QEN != 0 <==> running) &&
      (cher.value.bits & CHER_CHEN != 0 <==> !running)
    ensures var ws := StartWrites(running, latch, Descriptors(buffer, off, y, u, v));
      running ==> ws[..3] == [RegWrite(HEOHEAD, Val(Wrap32(buffer + off))),
                              RegWrite(HEOUHEAD, Val(Wrap32(buffer + off + 16))),
                              RegWrite(HEOVHEAD, Val(Wrap32(buffer + off + 32)))]
    ensures var ws := StartWrites(running, latch, Descriptors(buffer, off, y, u, v));
      !running ==> ws[0] == RegWrite(HEOADDR, Val(Wrap32(y))) && ws[2] == RegWrite(HEONEXT, Val(Wrap32(buffer + off))) &&
                   ws[3] == RegWrite(HEOUADDR, Val(Wrap32(u))) && ws[5] == RegWrite(HEOUNEXT, Val(Wrap32(buffer + off + 16))) &&
                   ws[6] == RegWrite(HEOVADDR, Val(Wrap32(v))) && ws[8] == RegWrite(HEOVNEXT, Val(Wrap32(buffer + off + 32)))
  {
    StartCherMeaning(running, latch);
  }

  lemma StartCherMeaning(running: bool, latch: bool)
    ensures var b := StartCher(running, latch);
      (b & CHER_UPDATEEN != 0 <==> latch) && (b & CHER_A2QEN != 0 <==> running) && (b & CHER_CHEN != 0 <==> !running)
  {
  }

  // ---------------------------------------------------------------------
  // The overlay configuration

  /** Number of words in each scaling coefficient table (heo_downscaling_coef, heo_upscaling_coef). */
  const DOWNSCALING_COEFS: nat := 24
  const UPSCALING_COEFS: nat := 24

  /** setup_scaling_coef's coherence check holds: the register window holds exactly one table. */
  lemma CoefCountsCoherent()
    ensures (HEO_COEF_END - HEO_COEF_BASE) / 4 + 1 == DOWNSCALING_COEFS == UPSCALING_COEFS
  {
  }

  /** The values update_config_real derives from the format, the window and the rotation. */
  datatype HwConfig = HwConfig(win: HwWindow, xmem: int, ymem: int, xfactor: int, yfactor: int, y: Strides, uv: Strides)

  /**
   * The window can be programmed: both resolutions and frame dimensions are
   * u32, the window has a positive 32-bit size (MemSize divides by it), and
   * the clamped window's size minus one is not zero as a u32 (the scaling
   * factor divides by it).
   */
  predicate Configurable(pix: PixFormat, rect: Rect, xres: nat, yres: nat)
  {
    IsU32(xres) && IsU32(yres) && IsU32(pix.width) && IsU32(pix.height) &&
    0 < rect.width < TWO32 && 0 < rect.height < TWO32 &&
    Wrap32(ClampWindow(rect, xres, yres).xsize - 1) > 0 && Wrap32(ClampWindow(rect, xres, yres).ysize - 1) > 0
  }

  /**
   * update_config_real's arithmetic: the clamped window, the memory extent it
   * shows, the SAMA5 scaling factors (computed from the sizes minus one, with
   * the phase offsets setup_scaling_coef selects) and the strides of the luma
   * and the half-size chroma planes.
   */
  function Config(pix: PixFormat, rect: Rect, xres: nat, yres: nat, rotation: int): HwConfig
    requires Configurable(pix, rect, xres, yres) && rotation >= 0
  {
    var hw := ClampWindow(rect, xres, yres);
    var (xmem, ymem) := MemSize(pix, rotation, rect, hw);
    HwConfig(hw, xmem, ymem,
             ScalingFactor(Wrap32(xmem - 1), Wrap32(hw.xsize - 1), XPHIDEF_DEFAULT),
             ScalingFactor(Wrap32(ymem - 1), Wrap32(hw.ysize - 1), YPHIDEF_DEFAULT),
             VideoParams(pix.width, pix.height, rotation),
             VideoParams(DivRoundUp32(pix.width, 2), DivRoundUp32(pix.height, 2), rotation))
  }

  /**
   * The plane offsets update_config_real sets, modulo 2^32: Y at the first
   * scanned pixel of the luma plane, U behind the luma plane and V behind U.
   */
  function PlaneOffsets(pix: PixFormat, c: HwConfig): (int, int, int)
  {
    var u := Wrap32(c.uv.tloffset + pix.width * pix.height);
    (c.y.tloffset, u, Wrap32(u + DivRoundUp32(pix.width, 2) * DivRoundUp32(pix.height, 2)))
  }

  /** HEOCFG1 by pixel format; YUV 4:2:0 falls through into the default case and is written twice. */
  function Cfg1Writes(f: PixelFormat): seq<RegWrite>
  {
    match f
    case YUYV => [RegWrite(HEOCFG1, Bits(CFG1_YUVMODE_16YCBCR_0 | CFG1_YUVEN))]
    case UYVY => [RegWrite(HEOCFG1, Bits(CFG1_YUVMODE_16YCBCR_1 | CFG1_YUVEN))]
    case YUV420 => [RegWrite(HEOCFG1, Bits(CFG1_YUVMODE_12YCBCRP | CFG1_YUVEN)),
                    RegWrite(HEOCFG1, Bits(CFG1_YUVMODE_12YCBCRP | CFG1_YUVEN))]
    case OtherFormat(_) => [RegWrite(HEOCFG1, Bits(CFG1_YUVMODE_12YCBCRP | CFG1_YUVEN))]
  }

  /** The coefficient table written word by word into HEO_COEF_BASE .. HEO_COEF_END. */
  function CoefWrites(downscale: bool): (ws: seq<RegWrite>)
    ensures |ws| == DOWNSCALING_COEFS
  {
    seq(DOWNSCALING_COEFS, i requires 0 <= i < DOWNSCALING_COEFS => RegWrite(HEO_COEF_BASE + 4 * i, Coef(downscale, i)))
  }

  /** setup_scaling_coef: the chosen table, then the filter phase offsets in HEOCFG41. */
  function ScalingCoefWrites(xmem: int, xsize: int): seq<RegWrite>
  {
    CoefWrites(xmem >= xsize) + [RegWrite(HEOCFG41, Pair(0, XPHIDEF_DEFAULT, YPHIDEF_DEFAULT))]
  }

  /** The register writes of update_config_real, in order, for configuration c of format pix. */
  function ConfigWrites(pix: PixFormat, c: HwConfig): seq<RegWrite>
  {
    WindowWrites(pix, c) + ScalingCoefWrites(c.xmem, c.win.xsize) + StrideWrites(c)
  }

  /** Position, size, format, global alpha and memory extent, in the order update_config_real writes them. */
  function WindowWrites(pix: PixFormat, c: HwConfig): seq<RegWrite>
  {
    [RegWrite(HEOCFG2, Pair(0, c.win.xpos, c.win.ypos)),
     RegWrite(HEOCFG3, Pair(0, Wrap32(c.win.xsize - 1), Wrap32(c.win.ysize - 1)))] +
    Cfg1Writes(pix.pixelformat) +
    [RegWrite(HEOCFG12, Bits(CFG12_GAEN | CFG12_OVR | CFG12_DMA | CFG12_REP | CFG12_GA)),
     RegWrite(HEOCFG4, Pair(0, Wrap32(c.xmem - 1), Wrap32(c.ymem - 1)))]
  }

  /** Scaling factors, the strides of both planes and the colour conversion matrix. */
  function StrideWrites(c: HwConfig): seq<RegWrite>
  {
    seq(8, i requires 0 <= i < 8 => StrideWrite(c, i))
  }

  /** The i-th of them: HEOCFG13, HEOCFG5 .. HEOCFG8, then the three matrix words HEOCFG14 .. HEOCFG16. */
  function StrideWrite(c: HwConfig, i: nat): RegWrite
    requires i < 8
  {
    if i == 0 then RegWrite(HEOCFG13, Pair(CFG13_SCALEN, c.xfactor, c.yfactor))
    else if i == 1 then RegWrite(HEOCFG5, Val(Wrap32(c.y.xstride - 1)))
    else if i == 2 then RegWrite(HEOCFG6, Val(Wrap32(c.y.pstride - 1)))
    else if i == 3 then RegWrite(HEOCFG7, Val(Wrap32(c.uv.xstride - 1)))
    else if i == 4 then RegWrite(HEOCFG8, Val(Wrap32(c.uv.pstride - 1)))
    else if i == 5 then RegWrite(HEOCFG14, Csc(0))
    else if i == 6 then RegWrite(HEOCFG15, Csc(1))
    else RegWrite(HEOCFG16, Csc(2))
  }

  /**
   * The coefficient writes fill the register window word by word: the i-th
   * write goes to HEO_COEF_BASE + 4i and carries word i of one table, the
   * last one lands on HEO_COEF_END, and the table is the downscaling one
   * exactly when the memory extent is at least the window width.
   */
  lemma {:induction false} ScalingCoefWritesMeaning(xmem: int, xsize: int)
    ensures var ws := ScalingCoefWrites(xmem, xsize);
      |ws| == DOWNSCALING_COEFS + 1 &&
      (forall i :: 0 <= i < DOWNSCALING_COEFS ==> ws[i].offset == HEO_COEF_BASE + 4 * i && ws[i].value.Coef? &&
                                                  ws[i].value.index == i && (ws[i].value.downscale <==> xmem >= xsize)) &&
      ws[DOWNSCALING_COEFS - 1].offset == HEO_COEF_END &&
      ws[DOWNSCALING_COEFS] == RegWrite(HEOCFG41, Pair(0, 4, 4))
  {
    var ws := ScalingCoefWrites(xmem, xsize);
    forall i | 0 <= i < DOWNSCALING_COEFS
      ensures ws[i] == CoefWrites(xmem >= xsize)[i]
    {
    }
  }

  /**
   * The last HEOCFG1 write selects the YUV mode of the format: packed 4:2:2
   * in either byte order for YUYV and UYVY, planar 4:2:0 for everything else.
   */
  lemma Cfg1WritesMeaning(f: PixelFormat)
    ensures var ws := Cfg1Writes(f);
      |ws| >= 1 && (forall k :: 0 <= k < |ws| ==> ws[k].offset == HEOCFG1) &&
      ws[|ws| - 1].value.Bits? && ws[|ws| - 1].value.bits & CFG1_YUVEN != 0 &&
      (ws[|ws| - 1].value.bits & CFG1_YUVMODE_12YCBCRP != 0 <==> !(f == YUYV || f == UYVY)) &&
      (|ws| == 2 <==> f == YUV420)
  {
  }

  /**
   * For a window that passes update_config's check (and is wider and higher
   * than one pixel): the hardware window is exactly the requested one, the
   * memory extent is the whole rotated frame, and each scaling factor reads
   * no further than the frame's last pixel.
   */
  lemma {:induction false} ConfigOfValidWindow(pix: PixFormat, rect: Rect, xres: nat, yres: nat, rotation: int)
    requires WindowValid(pix, rect, xres, yres) && rect.width != 1 && rect.height != 1 && rotation >= 0
    requires xres < 0x1_0000 && yres < 0x1_0000 && pix.width < 0x1_0000 && pix.height < 0x1_0000
    ensures Configurable(pix, rect, xres, yres)
    ensures var c := Config(pix, rect, xres, yres, rotation);
      c.win == HwWindow(rect.left, rect.top, rect.width, rect.height) &&
      (c.xmem, c.ymem) == RotatedSize(pix, rotation)
    ensures var c := Config(pix, rect, xres, yres, rotation);
      c.xmem >= 2 ==> MemCovered(c.xfactor, rect.width - 1, XPHIDEF_DEFAULT) <= c.xmem - 1
    ensures var c := Config(pix, rect, xres, yres, rotation);
      c.ymem >= 2 ==> MemCovered(c.yfactor, rect.height - 1, YPHIDEF_DEFAULT) <= c.ymem - 1
  {
    ValidWindowUnclampedExtent(pix, rect, xres, yres, rotation);
    ConfigFields(pix, rect, xres, yres, rotation);
    var c := Config(pix, rect, xres, yres, rotation);
    FactorsWithinFrame(c, rect.width, rect.height);
  }

  /** A window that passes the check, over 16-bit sizes, is configurable and left unclamped. */
  lemma ValidWindowUnclampedExtent(pix: PixFormat, rect: Rect, xres: nat, yres: nat, rotation: int)
    requires WindowValid(pix, rect, xres, yres) && rect.width != 1 && rect.height != 1
    requires xres < 0x1_0000 && yres < 0x1_0000 && pix.width < 0x1_0000 && pix.height < 0x1_0000
    ensures Configurable(pix, rect, xres, yres)
    ensures 2 <= rect.width < 0x1_0000 && 2 <= rect.height < 0x1_0000
    ensures ClampWindow(rect, xres, yres) == HwWindow(rect.left, rect.top, rect.width, rect.height)
    ensures MemSize(pix, rotation, rect, ClampWindow(rect, xres, yres)) == RotatedSize(pix, rotation)
  {
    ValidWindowUnclamped(pix, rect, xres, yres, rotation);
    WrapIdem(rect.width - 1);
    WrapIdem(rect.height - 1);
  }

  /** The window, memory extent and scaling factors of a configuration, field by field. */
  lemma ConfigFields(pix: PixFormat, rect: Rect, xres: nat, yres: nat, rotation: int)
    requires Configurable(pix, rect, xres, yres) && rotation >= 0
    ensures var c := Config(pix, rect, xres, yres, rotation);
      var hw := ClampWindow(rect, xres, yres);
      c.win == hw && (c.xmem, c.ymem) == MemSize(pix, rotation, rect, hw) &&
      c.xfactor == ScalingFactor(Wrap32(c.xmem - 1), Wrap32(hw.xsize - 1), XPHIDEF_DEFAULT) &&
      c.yfactor == ScalingFactor(Wrap32(c.ymem - 1), Wrap32(hw.ysize - 1), YPHIDEF_DEFAULT)
  {
  }

  /** Both scaling factors of a configuration over 16-bit sizes keep within the memory extent. */
  lemma FactorsWithinFrame(c: HwConfig, width: nat, height: nat)
    requires 2 <= width < 0x1_0000 && 2 <= height < 0x1_0000 && c.xmem < 0x1_0000 && c.ymem < 0x1_0000
    requires c.xmem >= 1 && c.ymem >= 1
    requires c.xfactor == ScalingFactor(Wrap32(c.xmem - 1), Wrap32(width - 1), XPHIDEF_DEFAULT)
    requires c.yfactor == ScalingFactor(Wrap32(c.ymem - 1), Wrap32(height - 1), YPHIDEF_DEFAULT)
    ensures c.xmem >= 2 ==> MemCovered(c.xfactor, width - 1, XPHIDEF_DEFAULT) <= c.xmem - 1
    ensures c.ymem >= 2 ==> MemCovered(c.yfactor, height - 1, YPHIDEF_DEFAULT) <= c.ymem - 1
  {
    if c.xmem >= 2 {
      FactorBound(c.xmem - 1, width - 1);
    }
    if c.ymem >= 2 {
      FactorBound(c.ymem - 1, height - 1);
    }
  }

  /** The scaling factor for 16-bit sizes with the phase offset 4 keeps within the memory extent. */
  lemma FactorBound(mem: nat, size: nat)
    requires 1 <= mem < 0x1_0000 && 0 < size < 0x1_0000
    ensures MemCovered(ScalingFactor(Wrap32(mem), Wrap32(size), 4), size, 4) <= mem
  {
    WrapIdem(mem);
    WrapIdem(size);
    var x := 2048 * mem - 1024;
    QuotientBounds(x, size);
    var f0 := FirstEstimate(mem, size, 4);
    assert f0 * size <= x + size;
    ScalingFactorBound(mem, size, 4);
  }

  /** update_config's window outcome: the next cfgstate and hwstate. */
  function ConfigTransition(cfg: CfgState, hw: HwState, acts: bool, valid: bool, overlayOnly: bool): (CfgState, HwState)
  {
    if !acts then (cfg, hw)
    else if !valid then (Bad, hw)
    else if overlayOnly && hw == Running then (if cfg == Bad then (Good, Running) else (cfg, hw))
    else (GoodLatch, hw)
  }

  /**
   * The configuration state machine: it moves only when update_config acts;
   * a rejected window makes the configuration BAD, an accepted one never
   * leaves it BAD (it latches the new registers, or restarts the channel
   * when a running overlay recovers from BAD), and the hardware state is the
   * same afterwards.
   */
  lemma ConfigTransitionMeaning(cfg: CfgState, hw: HwState, acts: bool, valid: bool, overlayOnly: bool)
    ensures var (cfg', hw') := ConfigTransition(cfg, hw, acts, valid, overlayOnly);
      hw' == hw && (!acts ==> cfg' == cfg) && (acts && !valid ==> cfg' == Bad) &&
      (acts && valid ==> cfg' != Bad) &&
      (acts && valid && !(overlayOnly && hw == Running) ==> cfg' == GoodLatch)
  {
  }

  /** No write of a configuration or of a DMA start goes to HEOCHDR. */
  predicate AvoidsChdr(ws: seq<RegWrite>)
  {
    forall k :: 0 <= k < |ws| ==> ws[k].offset != HEOCHDR
  }

  /** update_config_real only writes configuration registers, never HEOCHDR. */
  lemma {:induction false} ConfigWritesAvoidChdr(pix: PixFormat, c: HwConfig)
    ensures AvoidsChdr(ConfigWrites(pix, c))
  {
    var ws := ConfigWrites(pix, c);
    ScalingCoefWritesMeaning(c.xmem, c.win.xsize);
    Cfg1WritesMeaning(pix.pixelformat);
    var a, b, d := WindowWrites(pix, c), ScalingCoefWrites(c.xmem, c.win.xsize), StrideWrites(c);
    forall k | 0 <= k < |ws|
      ensures ws[k].offset != HEOCHDR
    {
      if k < |a| {
        assert ws[k] == a[k];
      } else if k < |a| + |b| {
        assert ws[k] == b[k - |a|];
      } else {
        assert ws[k] == d[k - |a| - |b|];
      }
    }
  }

  lemma StartWritesAvoidChdr(running: bool, latch: bool, ds: seq<Descriptor>)
    requires |ds| == 3
    ensures AvoidsChdr(StartWrites(running, latch, ds))
  {
  }

  lemma AvoidsChdrConcat(a: seq<RegWrite>, b: seq<RegWrite>)
    requires AvoidsChdr(a) && AvoidsChdr(b)
    ensures AvoidsChdr(a + b) && RegWrite(HEOCHDR, Bits(CHDR_CHDIS)) !in a + b
  {
    var ws := a + b;
    forall k | 0 <= k < |ws|
      ensures ws[k].offset != HEOCHDR
    {
      if k < |a| { assert ws[k] == a[k]; } else { assert ws[k] == b[k - |a|]; }
    }
  }

  /**
   * The inputs for which update_config is defined once the format is in
   * place: a window that passes the check can be programmed (the scaling
   * factor divides by the window size minus one), and a running overlay
   * recovering from BAD has a buffer to show again (show_buf reads cur.vb).
   */
  predicate ReconfigSafe(overlayOnly: bool, pix: PixFormat, rect: Rect, xres: nat, yres: nat,
                         running: bool, bad: bool, holding: bool)
  {
    WindowValid(pix, rect, xres, yres) ==>
      Configurable(pix, rect, xres, yres) && (overlayOnly && running && bad ==> holding)
  }

  /** Among windows that pass the check, the ones update_config_real can program are those at least two pixels wide and high. */
  lemma ValidWindowConfigurable(pix: PixFormat, rect: Rect, xres: nat, yres: nat)
    requires WindowValid(pix, rect, xres, yres) && IsU32(pix.width) && IsU32(pix.height)
    requires xres < 0x1_0000 && yres < 0x1_0000
    ensures Configurable(pix, rect, xres, yres) <==> rect.width != 1 && rect.height != 1
  {
    ValidWindowNotClamped(pix, rect, xres, yres);
    WrapIdem(rect.width - 1);
    WrapIdem(rect.height - 1);
  }

  /** What handle_irqstat does to the slots keeps them well-formed and distinct. */
  lemma IrqKeepsSlots(p: Pipeline, hwIdle: bool, cfgBad: bool, hw: HwRead, q: Pipeline, out: seq<Completion>)
    requires SlotsOk(p)
    requires Step(q, out) == IrqStep(p, hwIdle, cfgBad, hw)
    ensures SlotsOk(q) && (q.next.Some? ==> q.cur.Some?)
  {
    IrqStepMeaning(p, hwIdle, cfgBad, hw);
  }

  /** Showing a buffer the driver does not hold keeps the slots distinct and accounts for the new buffer. */
  lemma ShowKeepsSlots(p: Pipeline, b: BufInfo, hw: HwRead, q: Pipeline, out: seq<Completion>)
    requires SlotsOk(p)
    requires WellFormedInfo(b) && !InSlots(p, b.vb)
    requires Step(q, out) == ShowStep(p, b, hw)
    ensures SlotsOk(q)
  {
    InSlotsIsHeld(p, b.vb);
    ShowStepMeaning(p, b, hw);
  }

  /** The slot and register work of handle_irqstat, on values. */
  method IrqUpdate(cur: Option<BufInfo>, next: Option<BufInfo>, hwIdle: bool, cfgBad: bool, hw: HwRead)
    returns (c: Option<BufInfo>, n: Option<BufInfo>, out: seq<Completion>, log: seq<RegWrite>)
    requires WellFormedPipe(Pipeline(cur, next))
    ensures var st := IrqStep(Pipeline(cur, next), hwIdle, cfgBad, hw);
      c == st.pipe.cur && n == st.pipe.next && out == st.completed && log == IrqWrites(hwIdle, hw)
  {
    c, n, out := IrqSlotUpdate(cur, next, hwIdle, cfgBad, hw);
    log := [];
    if hwIdle && ChannelStopped(hw) {
      log := [RegWrite(HEOIDR, Bits(DMA_ADD_IRQS))];
    }
  }

  /**
   * handle_irqstat's slot logic on the slot values: an empty cur takes over
   * next; an idle, stopped channel hands both back DONE; with both slots full
   * cur is handed back DONE and next moves up unless the channel runs and the
   * DMA still reads cur.
   */
  method IrqSlotUpdate(cur: Option<BufInfo>, next: Option<BufInfo>, hwIdle: bool, cfgBad: bool, hw: HwRead)
    returns (c: Option<BufInfo>, n: Option<BufInfo>, out: seq<Completion>)
    requires WellFormedPipe(Pipeline(cur, next))
    ensures Step(Pipeline(c, n), out) == IrqStep(Pipeline(cur, next), hwIdle, cfgBad, hw)
  {
    ghost var s := IrqStep(Pipeline(cur, next), hwIdle, cfgBad, hw);
    c, n := cur, next;
    if c.None? {
      c, n := n, None;
    }
    ghost var q := Pipeline(c, n);
    assert q == Promote(Pipeline(cur, next));
    out := [];
    if hwIdle && ChannelStopped(hw) {
      assert s == FlushSlots(q);
      if c.Some? {
        out := out + [Completion(c.value.vb, Done)];
        c := None;
      }
      if n.Some? {
        out := out + [Completion(n.value.vb, Done)];
        n := None;
      }
    } else if c.Some? && n.Some? {
      var hwRunning := true;
      if cfgBad && ChannelStopped(hw) {
        hwRunning := false;
      }
      if !hwRunning || !BufInUse(c.value, hw) {
        assert s == IrqSlots(q, false, true);
        out := [Completion(c.value.vb, Done)];
        c, n := n, None;
      } else {
        assert s == IrqSlots(q, false, false);
      }
    } else {
      assert s == IrqSlots(q, false, false);
    }
  }

  /**
   * show_buf's slot logic on the slot values: cur stays while the DMA still
   * reads it and a waiting next is dropped with ERROR; otherwise cur is
   * handed back DONE and next moves up. b becomes next.
   */
  method ShowSlotUpdate(cur: Option<BufInfo>, next: Option<BufInfo>, b: BufInfo, hw: HwRead)
    returns (c: Option<BufInfo>, n: Option<BufInfo>, out: seq<Completion>)
    requires WellFormedSlot(cur)
    ensures Step(Pipeline(c, n), out) == ShowStep(Pipeline(cur, next), b, hw)
  {
    c, n := cur, next;
    out := [];
    if c.Some? && BufInUse(c.value, hw) {
      if n.Some? {
        out := [Completion(n.value.vb, Error)];
      }
    } else {
      if c.Some? {
        out := [Completion(c.value.vb, Done)];
      }
      c := n;
    }
    n := Some(b);
  }

  /** Three 32-bit plane sizes, both chroma planes in plane 0, a rotation in 0..3 and 32-bit offsets. */
  predicate LayoutOk(planeSize: seq<int>, uPlane: int, vPlane: int, rotation: int, yOffset: int, uOffset: int, vOffset: int)
  {
    |planeSize| == 3 && (forall k :: 0 <= k < 3 ==> IsU32(planeSize[k])) &&
    uPlane == 0 && vPlane == 0 && 0 <= rotation < 4 &&
    IsU32(yOffset) && IsU32(uOffset) && IsU32(vOffset)
  }

  predicate FormatOk(pix: PixFormat)
  {
    IsU32(pix.width) && IsU32(pix.height)
  }

  predicate SlotsOk(p: Pipeline)
  {
    WellFormedPipe(p) && Distinct(p)
  }

  /** An interrupt the mask enables is pending. */
  predicate Pending(isr: bv32, imr: bv32)
  {
    isr & imr != 0
  }

  // ---------------------------------------------------------------------
  // The channel state as a value, and what each entry point does to it

  /** The members of at91sam9x5_video_priv the channel operations update. */
  datatype Chan = Chan(
    hwState: HwState, cfgState: CfgState, cfgUpdate: bool,
    fmtCur: PixFormat, fmtNext: PixFormat, window: Rect, rotation: int,
    uPlane: int, vPlane: int, planeSize: seq<int>, yOffset: int, uOffset: int, vOffset: int,
    cur: Option<BufInfo>, next: Option<BufInfo>,
    regs: seq<RegWrite>, done: seq<Completion>, desc: map<(int, int), Descriptor>)

  function Slots(s: Chan): Pipeline
  {
    Pipeline(s.cur, s.next)
  }

  /** What every entry point keeps: distinct well-formed slots, the plane layout of update_config_real, u32 frame sizes. */
  predicate ChanOk(s: Chan)
  {
    SlotsOk(Slots(s)) &&
    LayoutOk(s.planeSize, s.uPlane, s.vPlane, s.rotation, s.yOffset, s.uOffset, s.vOffset) &&
    FormatOk(s.fmtCur) && FormatOk(s.fmtNext)
  }

  /**
   * No buffer is lost or invented between s and t: the completion log only
   * grows, and the buffers s held, together with extra (those handed to the
   * driver meanwhile), are the buffers t holds and those completed since s.
   */
  predicate Accounts(s: Chan, t: Chan, extra: multiset<VideoBuffer>)
  {
    |s.done| <= |t.done| && t.done[..|s.done|] == s.done &&
    Held(Slots(s)) + extra == Held(Slots(t)) + Returned(t.done[|s.done|..])
  }

  /** The writes an operation appended to the register log. */
  function NewWrites(s: Chan, t: Chan): seq<RegWrite>
    requires |s.regs| <= |t.regs|
  {
    t.regs[|s.regs|..]
  }

  /** handle_irqstat. */
  function IrqChan(s: Chan, hw: HwRead): Chan
    requires WellFormedPipe(Slots(s))
  {
    var st := IrqStep(Slots(s), s.hwState == Idle, s.cfgState == Bad, hw);
    s.(cur := st.pipe.cur, next := st.pipe.next, done := s.done + st.completed,
       regs := s.regs + IrqWrites(s.hwState == Idle, hw))
  }

  /** handle_irqstat keeps the invariant and leaves next empty unless cur is full. */
  lemma IrqChanMeaning(s: Chan, hw: HwRead)
    requires ChanOk(s)
    ensures var t := IrqChan(s, hw);
      ChanOk(t) && (t.next.Some? ==> t.cur.Some?)
  {
    var st := IrqStep(Slots(s), s.hwState == Idle, s.cfgState == Bad, hw);
    IrqKeepsSlots(Slots(s), s.hwState == Idle, s.cfgState == Bad, hw, st.pipe, st.completed);
  }

  /** handle_irqstat accounts for every buffer and hands back DONE the ones it retires. */
  lemma IrqChanAccounts(s: Chan, hw: HwRead)
    requires WellFormedPipe(Slots(s))
    ensures var t := IrqChan(s, hw);
      Accounts(s, t, multiset{}) && AllDone(t.done[|s.done|..])
  {
    var st := IrqStep(Slots(s), s.hwState == Idle, s.cfgState == Bad, hw);
    var t := IrqChan(s, hw);
    IrqStepMeaning(Slots(s), s.hwState == Idle, s.cfgState == Bad, hw);
    assert Slots(t) == st.pipe;
    assert t.done[..|s.done|] == s.done;
    assert t.done[|s.done|..] == st.completed;
  }

  /** On a running channel handle_irqstat leaves cur empty only when both slots were empty. */
  lemma IrqChanKeepsCur(s: Chan, hw: HwRead)
    requires WellFormedPipe(Slots(s))
    ensures s.hwState == Running ==> (IrqChan(s, hw).cur.Some? <==> s.cur.Some? || s.next.Some?)
  {
    if s.hwState == Running {
      IrqKeepsCur(Slots(s), false, s.cfgState == Bad, hw);
    }
  }

  /** handle_irqstat writes a register only to mask the DMA/ADD interrupts, and does so exactly when an idle channel is found stopped. */
  lemma IrqChanWrites(s: Chan, hw: HwRead)
    requires WellFormedPipe(Slots(s))
    ensures var t := IrqChan(s, hw);
      |s.regs| <= |t.regs| &&
      (NewWrites(s, t) == [RegWrite(HEOIDR, Bits(DMA_ADD_IRQS))] <==> s.hwState == Idle && ChannelStopped(hw)) &&
      (NewWrites(s, t) != [] ==> NewWrites(s, t) == [RegWrite(HEOIDR, Bits(DMA_ADD_IRQS))])
  {
    var t := IrqChan(s, hw);
    assert NewWrites(s, t) == IrqWrites(s.hwState == Idle, hw);
  }

  /** The hardware half of show_buf: the descriptors go into the buffer, the channel is started or re-pointed, the configuration is applied. */
  function ProgramDmaChan(s: Chan, vb: VideoBuffer): Chan
    requires WellFormedBuffer(vb) && 0 <= s.uPlane < |vb.planes| && 0 <= s.vPlane < |vb.planes|
  {
    var ds := BufDescriptors(vb, s.fmtCur, s.yOffset, s.uOffset, s.vOffset, s.uPlane, s.vPlane);
    s.(desc := StoreDescriptors(s.desc, vb.planes[0], DescOffset(s.fmtCur), ds),
       regs := s.regs + StartWrites(s.hwState == Running, s.cfgState == GoodLatch, ds),
       hwState := Running, cfgState := Good)
  }

  /** show_buf; the kernel stops (BUG_ON) when the configuration is BAD. */
  function ShowBufChan(s: Chan, vb: VideoBuffer, hw: HwRead): Chan
    requires s.cfgState != Bad && WellFormedSlot(s.cur)
    requires WellFormedBuffer(vb) && 0 <= s.uPlane < |vb.planes| && 0 <= s.vPlane < |vb.planes|
  {
    var st := ShowStep(Slots(s), BufInfo(vb, s.uPlane, s.vPlane, s.planeSize), hw);
    ProgramDmaChan(s, vb).(cur := st.pipe.cur, next := st.pipe.next, done := s.done + st.completed)
  }

  /**
   * show_buf leaves the channel running with the configuration applied, vb
   * in next with the plane layout and sizes current at the time, and its
   * three self-linked descriptors in its trailer; a buffer the driver did not
   * hold keeps the invariant.
   */
  lemma ShowBufMeaning(s: Chan, vb: VideoBuffer, hw: HwRead)
    requires ChanOk(s) && s.cfgState != Bad && WellFormedBuffer(vb) && !InSlots(Slots(s), vb)
    ensures var t := ShowBufChan(s, vb, hw);
      ChanOk(t) && t.hwState == Running && t.cfgState == Good &&
      t.next == Some(BufInfo(vb, s.uPlane, s.vPlane, s.planeSize)) &&
      SelfLinked(t.desc, vb.planes[0], DescOffset(s.fmtCur))
  {
    var b := BufInfo(vb, s.uPlane, s.vPlane, s.planeSize);
    var st := ShowStep(Slots(s), b, hw);
    ShowKeepsSlots(Slots(s), b, hw, st.pipe, st.completed);
    DescriptorsSelfLoop(s.desc, vb.planes[0], DescOffset(s.fmtCur), s.yOffset, s.uOffset, s.vOffset);
  }

  /** show_buf accounts for every buffer, vb included, and hands back at most one. */
  lemma ShowBufAccounts(s: Chan, vb: VideoBuffer, hw: HwRead)
    requires ChanOk(s) && s.cfgState != Bad && WellFormedBuffer(vb)
    ensures var t := ShowBufChan(s, vb, hw);
      Accounts(s, t, multiset{vb}) && |t.done| <= |s.done| + 1
  {
    var b := BufInfo(vb, s.uPlane, s.vPlane, s.planeSize);
    var st := ShowStep(Slots(s), b, hw);
    var t := ShowBufChan(s, vb, hw);
    ShowStepMeaning(Slots(s), b, hw);
    assert Slots(t) == st.pipe;
    assert t.done[..|s.done|] == s.done;
    assert t.done[|s.done|..] == st.completed;
  }

  /** Program configuration c: its register writes, and the plane offsets with both chroma planes in plane 0. */
  function ApplyConfigChan(s: Chan, c: HwConfig): Chan
  {
    var o := PlaneOffsets(s.fmtCur, c);
    s.(regs := s.regs + ConfigWrites(s.fmtCur, c), yOffset := o.0, uOffset := o.1, vOffset := o.2, uPlane := 0, vPlane := 0)
  }

  /** update_config_real: the rotation is dropped unless experimental features are enabled. */
  function UpdateConfigRealChan(s: Chan, xres: nat, yres: nat, experimental: bool): Chan
    requires Configurable(s.fmtCur, s.window, xres, yres) && s.rotation >= 0
  {
    var r := if experimental then s.rotation else 0;
    ApplyConfigChan(s.(rotation := r), Config(s.fmtCur, s.window, xres, yres, r))
  }

  /** A window that fails update_config's check: the channel is disabled unless it already was. */
  function RejectChan(s: Chan): Chan
  {
    s.(regs := s.regs + (if s.cfgState != Bad then [RegWrite(HEOCHDR, Bits(CHDR_CHDIS))] else []), cfgState := Bad)
  }

  /**
   * The end of update_config for an accepted window. A running overlay
   * recovering from BAD shows cur again through show_buf on a channel marked
   * idle with the configuration latched; the slots stay as they are (the
   * source passes cur to the whole of show_buf, see
   * ResubmittingCurHoldsItTwice). A running overlay with a good configuration
   * gets UPDATEEN; anything else latches the configuration for the next
   * show_buf.
   */
  function ResumeChan(s: Chan, overlayOnly: bool): Chan
    requires overlayOnly && s.hwState == Running && s.cfgState == Bad ==>
      s.cur.Some? && WellFormedBuffer(s.cur.value.vb) && s.uPlane == 0 && s.vPlane == 0
  {
    if overlayOnly && s.hwState == Running then
      if s.cfgState == Bad then ProgramDmaChan(s.(cfgState := GoodLatch, hwState := Idle), s.cur.value.vb)
      else s.(regs := s.regs + [RegWrite(HEOCHER, Bits(CHER_UPDATEEN))])
    else s.(cfgState := GoodLatch)
  }

  /**
   * update_config_real keeps the invariant, touches neither the slots nor
   * the state machines, drops the rotation unless experimental features are
   * enabled, and puts both chroma planes in plane 0.
   */
  lemma UpdateConfigRealMeaning(s: Chan, xres: nat, yres: nat, experimental: bool)
    requires ChanOk(s) && Configurable(s.fmtCur, s.window, xres, yres)
    ensures var t := UpdateConfigRealChan(s, xres, yres, experimental);
      ChanOk(t) && t.rotation == (if experimental then s.rotation else 0) && t.uPlane == 0 && t.vPlane == 0 &&
      t.(regs := s.regs, rotation := s.rotation, yOffset := s.yOffset, uOffset := s.uOffset, vOffset := s.vOffset,
         uPlane := s.uPlane, vPlane := s.vPlane) == s
  {
  }

  /**
   * The end of update_config for an accepted window keeps the invariant and
   * the slots, moves the state machines as ConfigTransition says for an
   * accepted window, and changes nothing but them, the register log and
   * the buffer memory.
   */
  lemma ResumeMeaning(s: Chan, overlayOnly: bool)
    requires ChanOk(s) && s.uPlane == 0 && s.vPlane == 0
    requires overlayOnly && s.hwState == Running && s.cfgState == Bad ==> s.cur.Some?
    ensures var t := ResumeChan(s, overlayOnly);
      ChanOk(t) && (t.cfgState, t.hwState) == ConfigTransition(s.cfgState, s.hwState, true, true, overlayOnly) &&
      t.(regs := s.regs, desc := s.desc, cfgState := s.cfgState, hwState := s.hwState) == s
  {
  }

  /** A rejected window keeps the invariant and changes only the register log and the configuration state. */
  lemma RejectMeaning(s: Chan)
    requires ChanOk(s)
    ensures var t := RejectChan(s);
      ChanOk(t) && t.cfgState == Bad && t.(regs := s.regs, cfgState := s.cfgState) == s
  {
  }

  /** What update_config demands of the state it is called in (see ReconfigSafe). */
  predicate UpdateConfigSafe(s: Chan, overlayOnly: bool, xres: nat, yres: nat)
  {
    s.cfgUpdate || overlayOnly ==>
      ReconfigSafe(overlayOnly, if overlayOnly then s.fmtCur else s.fmtNext, s.window, xres, yres,
                   s.hwState == Running, s.cfgState == Bad, s.cur.Some? || s.next.Some?)
  }

  /** What ReconfigChan needs: a well-formed cur and, for a window that passes the check, a configuration update_config_real can program. */
  predicate ReconfigReady(s: Chan, overlayOnly: bool, xres: nat, yres: nat)
  {
    s.rotation >= 0 && WellFormedSlot(s.cur) &&
    ReconfigSafe(overlayOnly, if overlayOnly then s.fmtCur else s.fmtNext, s.window, xres, yres,
                 s.hwState == Running, s.cfgState == Bad, s.cur.Some?)
  }

  /**
   * The body of update_config's "if (cfgupdate || overlay_only)": install the
   * pending format unless only the overlay changed, then reject the window or
   * program it and restart the channel.
   */
  function ReconfigChan(s: Chan, overlayOnly: bool, xres: nat, yres: nat, experimental: bool): Chan
    requires ReconfigReady(s, overlayOnly, xres, yres)
  {
    var s2 := if overlayOnly then s else s.(fmtCur := s.fmtNext, cfgUpdate := false);
    if !WindowValid(s2.fmtCur, s2.window, xres, yres) then RejectChan(s2)
    else ResumeChan(UpdateConfigRealChan(s2, xres, yres, experimental), overlayOnly)
  }

  /**
   * update_config: retire buffers as handle_irqstat does; then, when a new
   * format is pending or the overlay itself changed, take the pending format
   * (unless only the overlay changed) and reject or program the window.
   */
  function UpdateConfigChan(s: Chan, overlayOnly: bool, hw: HwRead, xres: nat, yres: nat, experimental: bool): Chan
    requires ChanOk(s) && UpdateConfigSafe(s, overlayOnly, xres, yres)
  {
    IrqChanMeaning(s, hw);
    IrqChanKeepsCur(s, hw);
    var s1 := IrqChan(s, hw);
    if s1.cfgUpdate || overlayOnly then ReconfigChan(s1, overlayOnly, xres, yres, experimental) else s1
  }

  /**
   * update_config keeps the invariant; its slots and completions are
   * handle_irqstat's. It acts only when a new
   * format is pending or the overlay changed; it then takes the pending
   * format unless only the overlay changed, clears cfgupdate, moves the
   * state machines as ConfigTransition says, and drops the rotation of an
   * accepted window unless experimental features are enabled.
   */
  lemma ReconfigMeaning(s: Chan, overlayOnly: bool, xres: nat, yres: nat, experimental: bool)
    requires ChanOk(s) && ReconfigReady(s, overlayOnly, xres, yres)
    ensures var t := ReconfigChan(s, overlayOnly, xres, yres, experimental);
      ChanOk(t) && Slots(t) == Slots(s) && t.done == s.done && t.window == s.window && t.fmtNext == s.fmtNext &&
      t.fmtCur == (if overlayOnly then s.fmtCur else s.fmtNext) && t.cfgUpdate == (s.cfgUpdate && overlayOnly)
    ensures var t := ReconfigChan(s, overlayOnly, xres, yres, experimental);
      var valid := WindowValid(t.fmtCur, s.window, xres, yres);
      (t.cfgState, t.hwState) == ConfigTransition(s.cfgState, s.hwState, true, valid, overlayOnly) &&
      t.rotation == (if valid && !experimental then 0 else s.rotation)
  {
    var s2 := if overlayOnly then s else s.(fmtCur := s.fmtNext, cfgUpdate := false);
    if WindowValid(s2.fmtCur, s2.window, xres, yres) {
      UpdateConfigRealMeaning(s2, xres, yres, experimental);
      ResumeMeaning(UpdateConfigRealChan(s2, xres, yres, experimental), overlayOnly);
    } else {
      RejectMeaning(s2);
    }
  }

  lemma UpdateConfigMeaning(s: Chan, overlayOnly: bool, hw: HwRead, xres: nat, yres: nat, experimental: bool)
    requires ChanOk(s) && UpdateConfigSafe(s, overlayOnly, xres, yres)
    ensures var t := UpdateConfigChan(s, overlayOnly, hw, xres, yres, experimental); var i := IrqChan(s, hw);
      ChanOk(t) && Slots(t) == Slots(i) && t.done == i.done &&
      t.window == s.window && t.fmtNext == s.fmtNext
    ensures var t := UpdateConfigChan(s, overlayOnly, hw, xres, yres, experimental);
      t.fmtCur == (if s.cfgUpdate && !overlayOnly then s.fmtNext else s.fmtCur) &&
      t.cfgUpdate == (s.cfgUpdate && overlayOnly)
    ensures var t := UpdateConfigChan(s, overlayOnly, hw, xres, yres, experimental);
      var acts := s.cfgUpdate || overlayOnly;
      var valid := WindowValid(t.fmtCur, s.window, xres, yres);
      (t.cfgState, t.hwState) == ConfigTransition(s.cfgState, s.hwState, acts, valid, overlayOnly) &&
      t.rotation == (if acts && valid && !experimental then 0 else s.rotation)
  {
    IrqChanMeaning(s, hw);
    IrqChanKeepsCur(s, hw);
    var i := IrqChan(s, hw);
    if i.cfgUpdate || overlayOnly {
      ReconfigMeaning(i, overlayOnly, xres, yres, experimental);
    }
  }

  /** update_config_real appends writes w to the register log, none of them to HEOCHDR. */
  lemma UpdateConfigRealAvoidsChdr(s: Chan, xres: nat, yres: nat, experimental: bool) returns (w: seq<RegWrite>)
    requires Configurable(s.fmtCur, s.window, xres, yres) && s.rotation >= 0
    ensures UpdateConfigRealChan(s, xres, yres, experimental).regs == s.regs + w && AvoidsChdr(w)
  {
    var c := Config(s.fmtCur, s.window, xres, yres, if experimental then s.rotation else 0);
    ConfigWritesAvoidChdr(s.fmtCur, c);
    w := ConfigWrites(s.fmtCur, c);
  }

  /** The end of update_config appends writes w to the register log, none of them to HEOCHDR. */
  lemma ResumeAvoidsChdr(s: Chan, overlayOnly: bool) returns (w: seq<RegWrite>)
    requires overlayOnly && s.hwState == Running && s.cfgState == Bad ==>
      s.cur.Some? && WellFormedBuffer(s.cur.value.vb) && s.uPlane == 0 && s.vPlane == 0
    ensures ResumeChan(s, overlayOnly).regs == s.regs + w && AvoidsChdr(w)
  {
    if overlayOnly && s.hwState == Running && s.cfgState == Bad {
      var ds := BufDescriptors(s.cur.value.vb, s.fmtCur, s.yOffset, s.uOffset, s.vOffset, 0, 0);
      StartWritesAvoidChdr(false, true, ds);
      w := StartWrites(false, true, ds);
    } else if overlayOnly && s.hwState == Running {
      w := [RegWrite(HEOCHER, Bits(CHER_UPDATEEN))];
    } else {
      w := [];
    }
  }

  /** An accepted window appends writes w to the register log, none of them to HEOCHDR. */
  lemma AcceptWritesAvoidChdr(s: Chan, overlayOnly: bool, xres: nat, yres: nat, experimental: bool) returns (w: seq<RegWrite>)
    requires ChanOk(s) && Configurable(s.fmtCur, s.window, xres, yres)
    requires overlayOnly && s.hwState == Running && s.cfgState == Bad ==> s.cur.Some?
    ensures ResumeChan(UpdateConfigRealChan(s, xres, yres, experimental), overlayOnly).regs == s.regs + w && AvoidsChdr(w)
  {
    var u := UpdateConfigRealChan(s, xres, yres, experimental);
    UpdateConfigRealMeaning(s, xres, yres, experimental);
    var w1 := UpdateConfigRealAvoidsChdr(s, xres, yres, experimental);
    var w2 := ResumeAvoidsChdr(u, overlayOnly);
    AvoidsChdrConcat(w1, w2);
    w := w1 + w2;
  }

  /**
   * After handle_irqstat, update_config disables the channel exactly when
   * the configuration turns BAD from GOOD or GOOD_LATCH, and then writes
   * nothing else.
   */
  lemma ReconfigWrites(s: Chan, overlayOnly: bool, xres: nat, yres: nat, experimental: bool)
    requires ChanOk(s) && ReconfigReady(s, overlayOnly, xres, yres)
    ensures var t := ReconfigChan(s, overlayOnly, xres, yres, experimental);
      |s.regs| <= |t.regs| && t.regs[..|s.regs|] == s.regs &&
      (RegWrite(HEOCHDR, Bits(CHDR_CHDIS)) in NewWrites(s, t) <==> s.cfgState != Bad && t.cfgState == Bad) &&
      (RegWrite(HEOCHDR, Bits(CHDR_CHDIS)) in NewWrites(s, t) ==> NewWrites(s, t) == [RegWrite(HEOCHDR, Bits(CHDR_CHDIS))])
  {
    ReconfigMeaning(s, overlayOnly, xres, yres, experimental);
    var s2 := if overlayOnly then s else s.(fmtCur := s.fmtNext, cfgUpdate := false);
    if WindowValid(s2.fmtCur, s2.window, xres, yres) {
      var w := AcceptWritesAvoidChdr(s2, overlayOnly, xres, yres, experimental);
      AvoidsChdrConcat(w, []);
      assert NewWrites(s, ReconfigChan(s, overlayOnly, xres, yres, experimental)) == w;
    }
  }

  lemma UpdateConfigWrites(s: Chan, overlayOnly: bool, hw: HwRead, xres: nat, yres: nat, experimental: bool)
    requires ChanOk(s) && UpdateConfigSafe(s, overlayOnly, xres, yres)
    ensures var t := UpdateConfigChan(s, overlayOnly, hw, xres, yres, experimental); var i := IrqChan(s, hw);
      |i.regs| <= |t.regs| && t.regs[..|i.regs|] == i.regs &&
      (RegWrite(HEOCHDR, Bits(CHDR_CHDIS)) in NewWrites(i, t) <==> s.cfgState != Bad && t.cfgState == Bad) &&
      (RegWrite(HEOCHDR, Bits(CHDR_CHDIS)) in NewWrites(i, t) ==> NewWrites(i, t) == [RegWrite(HEOCHDR, Bits(CHDR_CHDIS))])
  {
    IrqChanMeaning(s, hw);
    IrqChanKeepsCur(s, hw);
    var i := IrqChan(s, hw);
    if i.cfgUpdate || overlayOnly {
      ReconfigWrites(i, overlayOnly, xres, yres, experimental);
    } else {
      assert NewWrites(i, UpdateConfigChan(s, overlayOnly, hw, xres, yres, experimental)) == [];
    }
  }

  /** Two operations in a row account for every buffer when each does. */
  lemma AccountsTrans(s: Chan, m: Chan, t: Chan, e1: multiset<VideoBuffer>, e2: multiset<VideoBuffer>)
    requires Accounts(s, m, e1) && Accounts(m, t, e2)
    ensures Accounts(s, t, e1 + e2)
  {
    var a, b := m.done[|s.done|..], t.done[|m.done|..];
    PrefixChain(s.done, m.done, t.done);
    ReturnedConcat(a, b);
    Rearrange(Held(Slots(s)), e1, e2, Held(Slots(m)), Returned(a), Held(Slots(t)), Returned(b));
  }

  /** Prefixes compose, and the part of z after x is the part of y after x followed by the part of z after y. */
  lemma PrefixChain<T>(x: seq<T>, y: seq<T>, z: seq<T>)
    requires |x| <= |y| <= |z| && y[..|x|] == x && z[..|y|] == y
    ensures z[..|x|] == x && z[|x|..] == y[|x|..] + z[|y|..]
  {
    assert z[..|x|] == z[..|y|][..|x|];
    forall k | 0 <= k < |z| - |x|
      ensures z[|x|..][k] == (y[|x|..] + z[|y|..])[k]
    {
      if k < |y| - |x| {
        assert z[|x| + k] == z[..|y|][|x| + k];
      }
    }
  }

  /** update_config accounts for every buffer: it hands back only what handle_irqstat retires. */
  lemma UpdateConfigAccounts(s: Chan, overlayOnly: bool, hw: HwRead, xres: nat, yres: nat, experimental: bool)
    requires ChanOk(s) && UpdateConfigSafe(s, overlayOnly, xres, yres)
    ensures Accounts(s, UpdateConfigChan(s, overlayOnly, hw, xres, yres, experimental), multiset{})
  {
    UpdateConfigMeaning(s, overlayOnly, hw, xres, yres, experimental);
    IrqChanAccounts(s, hw);
  }

  /**
   * buf_queue: update_config, then show vb, or, while the configuration is
   * BAD, hand vb straight back DONE and mark the channel running.
   */
  function BufQueueChan(s: Chan, vb: VideoBuffer, hwIrq: HwRead, hwShow: HwRead, xres: nat, yres: nat, experimental: bool): Chan
    requires ChanOk(s) && UpdateConfigSafe(s, false, xres, yres) && WellFormedBuffer(vb)
  {
    UpdateConfigMeaning(s, false, hwIrq, xres, yres, experimental);
    var s1 := UpdateConfigChan(s, false, hwIrq, xres, yres, experimental);
    if s1.cfgState == Bad then s1.(done := s1.done + [Completion(vb, Done)], hwState := Running)
    else ShowBufChan(s1, vb, hwShow)
  }

  /**
   * buf_queue keeps the invariant and leaves the channel running; with a BAD
   * configuration vb is handed back DONE at once and the slots are
   * update_config's, otherwise the configuration is GOOD and vb waits in
   * next.
   */
  lemma BufQueueMeaning(s: Chan, vb: VideoBuffer, hwIrq: HwRead, hwShow: HwRead, xres: nat, yres: nat, experimental: bool)
    requires ChanOk(s) && UpdateConfigSafe(s, false, xres, yres) && WellFormedBuffer(vb) && !InSlots(Slots(s), vb)
    ensures var t := BufQueueChan(s, vb, hwIrq, hwShow, xres, yres, experimental);
      ChanOk(t) && t.hwState == Running
    ensures var t := BufQueueChan(s, vb, hwIrq, hwShow, xres, yres, experimental);
      var s1 := UpdateConfigChan(s, false, hwIrq, xres, yres, experimental);
      s1.cfgState == Bad ==> t.cfgState == Bad && Slots(t) == Slots(s1) && t.done == s1.done + [Completion(vb, Done)]
    ensures var t := BufQueueChan(s, vb, hwIrq, hwShow, xres, yres, experimental);
      var s1 := UpdateConfigChan(s, false, hwIrq, xres, yres, experimental);
      s1.cfgState != Bad ==> t.cfgState == Good && t.next == Some(BufInfo(vb, s1.uPlane, s1.vPlane, s1.planeSize))
  {
    UpdateConfigMeaning(s, false, hwIrq, xres, yres, experimental);
    var s1 := UpdateConfigChan(s, false, hwIrq, xres, yres, experimental);
    if s1.cfgState != Bad {
      IrqKeepsOut(Slots(s), s.hwState == Idle, s.cfgState == Bad, hwIrq, vb);
      ShowBufMeaning(s1, vb, hwShow);
    }
  }

  /** buf_queue accounts for every buffer, vb included. */
  lemma BufQueueAccounts(s: Chan, vb: VideoBuffer, hwIrq: HwRead, hwShow: HwRead, xres: nat, yres: nat, experimental: bool)
    requires ChanOk(s) && UpdateConfigSafe(s, false, xres, yres) && WellFormedBuffer(vb)
    ensures Accounts(s, BufQueueChan(s, vb, hwIrq, hwShow, xres, yres, experimental), multiset{vb})
  {
    UpdateConfigMeaning(s, false, hwIrq, xres, yres, experimental);
    UpdateConfigAccounts(s, false, hwIrq, xres, yres, experimental);
    var s1 := UpdateConfigChan(s, false, hwIrq, xres, yres, experimental);
    var t := BufQueueChan(s, vb, hwIrq, hwShow, xres, yres, experimental);
    if s1.cfgState == Bad {
      assert t.done[..|s1.done|] == s1.done;
      assert t.done[|s1.done|..] == [Completion(vb, Done)];
      ReturnedSingle(Completion(vb, Done));
    } else {
      ShowBufAccounts(s1, vb, hwShow);
    }
    AccountsTrans(s, s1, t, multiset{}, multiset{vb});
  }

  /** streamoff: disable the channel, retire buffers, re-enable the DMA/ADD interrupts while a buffer is left, and mark the channel idle. */
  function StreamOffChan(s: Chan, hw: HwRead): Chan
    requires WellFormedPipe(Slots(s))
  {
    var s1 := IrqChan(s.(regs := s.regs + [RegWrite(HEOCHDR, Bits(CHDR_CHDIS))]), hw);
    s1.(regs := s1.regs + (if s1.cur.Some? then [RegWrite(HEOIER, Bits(DMA_ADD_IRQS))] else []), hwState := Idle)
  }

  /**
   * streamoff keeps the invariant and the configuration, accounts for every
   * buffer, leaves the channel idle, and its first write disables the channel.
   */
  lemma StreamOffMeaning(s: Chan, hw: HwRead)
    requires ChanOk(s)
    ensures var t := StreamOffChan(s, hw);
      ChanOk(t) && t.hwState == Idle && t.cfgState == s.cfgState && t.cfgUpdate == s.cfgUpdate &&
      |s.regs| < |t.regs| && t.regs[|s.regs|] == RegWrite(HEOCHDR, Bits(CHDR_CHDIS))
  {
    IrqChanMeaning(s.(regs := s.regs + [RegWrite(HEOCHDR, Bits(CHDR_CHDIS))]), hw);
  }

  lemma StreamOffAccounts(s: Chan, hw: HwRead)
    requires WellFormedPipe(Slots(s))
    ensures Accounts(s, StreamOffChan(s, hw), multiset{})
  {
    IrqChanAccounts(s.(regs := s.regs + [RegWrite(HEOCHDR, Bits(CHDR_CHDIS))]), hw);
  }

  /** wait_prepare: retire buffers, then enable the DMA/ADD interrupts. */
  function WaitPrepareChan(s: Chan, hw: HwRead): Chan
    requires WellFormedPipe(Slots(s))
  {
    var s1 := IrqChan(s, hw);
    s1.(regs := s1.regs + [RegWrite(HEOIER, Bits(DMA_ADD_IRQS))])
  }

  /** The buffer types the format ioctls are called with. */
  datatype BufType = VideoOutput | VideoOverlay | OtherBufType(code: nat)

  /** The pixel formats VIDIOC_S_FMT accepts for video output. */
  predicate VoutFormat(f: PixelFormat)
  {
    f == YUV420 || f == UYVY || f == YUYV
  }

  /** Every format s_fmt_vid_out accepts can be queued: queue_setup sizes exactly those. */
  lemma VoutFormatsQueueable(pix: PixFormat)
    ensures VoutFormat(pix.pixelformat) <==> QueueSetupSize(pix).Ok?
    ensures !VoutFormat(pix.pixelformat) ==> QueueSetupSize(pix) == Err(EINVAL)
  {
  }

  /** The controls of VIDIOC_G_CTRL/S_CTRL. */
  datatype CtrlId = Rotate | OtherCtrl(code: nat)

  /**
   * Whether the DMA/ADD interrupts of the three planes are enabled after the
   * register writes ws: the last write to HEOIER or HEOIDR decides (every
   * such write in the driver carries the same six bits); with neither, the
   * reset state, all masked.
   */
  function IrqsEnabled(ws: seq<RegWrite>): bool
  {
    if ws == [] then false
    else if ws[|ws| - 1].offset == HEOIER then true
    else if ws[|ws| - 1].offset == HEOIDR then false
    else IrqsEnabled(ws[..|ws| - 1])
  }

  /**
   * wait_prepare keeps the invariant, accounts for every buffer and leaves
   * the DMA/ADD interrupts enabled while the process sleeps.
   */
  lemma WaitPrepareMeaning(s: Chan, hw: HwRead)
    requires ChanOk(s)
    ensures var t := WaitPrepareChan(s, hw);
      ChanOk(t) && Accounts(s, t, multiset{}) && IrqsEnabled(t.regs) &&
      t.cfgState == s.cfgState && t.hwState == s.hwState
  {
    IrqChanMeaning(s, hw);
    IrqChanAccounts(s, hw);
    var t := WaitPrepareChan(s, hw);
    assert t.regs[|t.regs| - 1].offset == HEOIER;
  }

  /** wait_finish: mask the DMA/ADD interrupts again. */
  function WaitFinishChan(s: Chan): Chan
  {
    s.(regs := s.regs + [RegWrite(HEOIDR, Bits(DMA_ADD_IRQS))])
  }

  /** A wait_prepare/wait_finish pair leaves the interrupts masked and changes nothing but the register log. */
  lemma WaitPairMasks(s: Chan, hw: HwRead)
    requires ChanOk(s)
    ensures var t := WaitFinishChan(WaitPrepareChan(s, hw));
      ChanOk(t) && !IrqsEnabled(t.regs) && Accounts(s, t, multiset{}) &&
      t.(regs := s.regs, cur := s.cur, next := s.next, done := s.done) == s
  {
    IrqChanMeaning(s, hw);
    IrqChanAccounts(s, hw);
    var t := WaitFinishChan(WaitPrepareChan(s, hw));
    assert t.regs[|t.regs| - 1].offset == HEOIDR;
    var m := WaitPrepareChan(s, hw);
    assert t.done == m.done && Slots(t) == Slots(m);
  }

  /**
   * streamoff leaves the DMA/ADD interrupts enabled when a buffer is still
   * held, so that its completion is still seen.
   */
  lemma StreamOffUnmasks(s: Chan, hw: HwRead)
    requires ChanOk(s)
    ensures var t := StreamOffChan(s, hw); t.cur.Some? ==> IrqsEnabled(t.regs)
  {
    var t := StreamOffChan(s, hw);
    if t.cur.Some? {
      assert t.regs[|t.regs| - 1].offset == HEOIER;
    }
  }

  /** s_fmt_vid_out: only a YUV420, UYVY or YUYV output format is accepted; it becomes the pending format. */
  function SetFmtVidOutChan(s: Chan, t: BufType, pix: PixFormat): (Result<()>, Chan)
  {
    if t != VideoOutput || !VoutFormat(pix.pixelformat) then (Err(EINVAL), s)
    else (Ok(()), s.(fmtNext := pix, cfgUpdate := true))
  }

  /**
   * A format s_fmt_vid_out accepts is the one the next buf_queue programs:
   * update_config installs it, clears cfgupdate, and the configuration is BAD
   * exactly when the overlay window does not fit it; queue_setup can size
   * buffers for it.
   */
  lemma SetFmtThenQueue(s: Chan, pix: PixFormat, hw: HwRead, xres: nat, yres: nat, experimental: bool)
    requires ChanOk(s) && FormatOk(pix)
    requires var u := SetFmtVidOutChan(s, VideoOutput, pix).1; UpdateConfigSafe(u, false, xres, yres)
    ensures var (r, u) := SetFmtVidOutChan(s, VideoOutput, pix);
      r.Ok? <==> QueueSetupSize(pix).Ok?
    ensures var (r, u) := SetFmtVidOutChan(s, VideoOutput, pix);
      r.Ok? ==> (ChanOk(u) &&
        var t := UpdateConfigChan(u, false, hw, xres, yres, experimental);
        t.fmtCur == pix && !t.cfgUpdate && (t.cfgState == Bad <==> !WindowValid(pix, s.window, xres, yres)))
  {
    VoutFormatsQueueable(pix);
    var (r, u) := SetFmtVidOutChan(s, VideoOutput, pix);
    if r.Ok? {
      UpdateConfigMeaning(u, false, hw, xres, yres, experimental);
      var t := UpdateConfigChan(u, false, hw, xres, yres, experimental);
      ConfigTransitionMeaning(u.cfgState, u.hwState, true, WindowValid(pix, s.window, xres, yres), false);
    }
  }

  /** s_fmt_vid_overlay: the overlay window takes effect at once through update_config. */
  function SetFmtOverlayChan(s: Chan, t: BufType, win: Rect, hw: HwRead, xres: nat, yres: nat, experimental: bool): (Result<()>, Chan)
    requires ChanOk(s) && (t == VideoOverlay ==> UpdateConfigSafe(s.(window := win), true, xres, yres))
  {
    if t != VideoOverlay then (Err(EINVAL), s)
    else (Ok(()), UpdateConfigChan(s.(window := win), true, hw, xres, yres, experimental))
  }

  /**
   * s_fmt_vid_overlay fails exactly for another buffer type and then changes
   * nothing; otherwise the new window is in force, the pending format stays
   * pending, and the configuration is BAD exactly when the window does not
   * fit the current format.
   */
  lemma SetFmtOverlayMeaning(s: Chan, t: BufType, win: Rect, hw: HwRead, xres: nat, yres: nat, experimental: bool)
    requires ChanOk(s) && (t == VideoOverlay ==> UpdateConfigSafe(s.(window := win), true, xres, yres))
    ensures var (r, u) := SetFmtOverlayChan(s, t, win, hw, xres, yres, experimental);
      ChanOk(u) && (r.Ok? <==> t == VideoOverlay) && (r.Err? ==> u == s)
    ensures var (r, u) := SetFmtOverlayChan(s, t, win, hw, xres, yres, experimental);
      r.Ok? ==> (u.window == win && u.fmtCur == s.fmtCur && u.fmtNext == s.fmtNext && u.cfgUpdate == s.cfgUpdate &&
        (u.cfgState == Bad <==> !WindowValid(s.fmtCur, win, xres, yres)))
  {
    if t == VideoOverlay {
      var s1 := s.(window := win);
      UpdateConfigMeaning(s1, true, hw, xres, yres, experimental);
      var u := UpdateConfigChan(s1, true, hw, xres, yres, experimental);
      ConfigTransitionMeaning(s1.cfgState, s1.hwState, true, WindowValid(s.fmtCur, win, xres, yres), true);
    }
  }

  /** g_ctrl: the rotation in degrees. */
  function GetCtrlChan(s: Chan, id: CtrlId): Result<int>
  {
    if id == Rotate then Ok(90 * s.rotation) else Err(EINVAL)
  }

  /**
   * s_ctrl: a rotation of 0, 90, 180 or 270 degrees is stored in quarter
   * turns and applied through update_config; anything else is EINVAL.
   */
  function SetCtrlChan(s: Chan, id: CtrlId, v: int, hw: HwRead, xres: nat, yres: nat, experimental: bool): (Result<()>, Chan)
    requires ChanOk(s) && (id == Rotate && RotateValueAccepted(v) ==> UpdateConfigSafe(s.(rotation := v / 90), true, xres, yres))
  {
    if id != Rotate || !RotateValueAccepted(v) then (Err(EINVAL), s)
    else (Ok(()), UpdateConfigChan(s.(rotation := v / 90), true, hw, xres, yres, experimental))
  }

  /**
   * s_ctrl as written: on the accepted path `ret` is never assigned, so the
   * call returns whatever the stack held, given here as `stale`.
   */
  function SetCtrlAsWritten(s: Chan, id: CtrlId, v: int, hw: HwRead, xres: nat, yres: nat, experimental: bool, stale: int): (int, Chan)
    requires ChanOk(s) && (id == Rotate && RotateValueAccepted(v) ==> UpdateConfigSafe(s.(rotation := v / 90), true, xres, yres))
  {
    if id != Rotate || !RotateValueAccepted(v) then (-Code(EINVAL), s)
    else (stale, UpdateConfigChan(s.(rotation := v / 90), true, hw, xres, yres, experimental))
  }

  /**
   * As written, an accepted rotation is applied exactly as SetCtrlChan
   * applies it, yet the caller is told the stale value: with -EINVAL on the
   * stack it reports a failure for a rotation that took effect.
   */
  lemma SetCtrlReportsStaleValue(s: Chan, v: int, hw: HwRead, xres: nat, yres: nat, experimental: bool, stale: int)
    requires ChanOk(s) && RotateValueAccepted(v) && UpdateConfigSafe(s.(rotation := v / 90), true, xres, yres)
    ensures SetCtrlAsWritten(s, Rotate, v, hw, xres, yres, experimental, stale).1 == SetCtrlChan(s, Rotate, v, hw, xres, yres, experimental).1
    ensures SetCtrlAsWritten(s, Rotate, v, hw, xres, yres, experimental, stale).0 == stale
    ensures SetCtrlChan(s, Rotate, v, hw, xres, yres, experimental).0 == Ok(())
  {
  }

  /**
   * s_ctrl succeeds exactly for the advertised angles, and g_ctrl then reads
   * the angle back, except that update_config_real drops it when it
   * programs a window with experimental features disabled.
   */
  lemma RotationRoundTrip(s: Chan, v: int, hw: HwRead, xres: nat, yres: nat, experimental: bool)
    requires ChanOk(s) && (RotateValueAccepted(v) ==> UpdateConfigSafe(s.(rotation := v / 90), true, xres, yres))
    ensures var (r, t) := SetCtrlChan(s, Rotate, v, hw, xres, yres, experimental);
      ChanOk(t) && (r.Ok? <==> v in {0, 90, 180, 270}) && (r.Err? ==> t == s)
    ensures var (r, t) := SetCtrlChan(s, Rotate, v, hw, xres, yres, experimental);
      r.Ok? ==> GetCtrlChan(t, Rotate) == if !experimental && WindowValid(s.fmtCur, s.window, xres, yres) then Ok(0) else Ok(v)
  {
    RotateValueAcceptedIsAdvertised(v);
    if RotateValueAccepted(v) {
      UpdateConfigMeaning(s.(rotation := v / 90), true, hw, xres, yres, experimental);
    }
  }

  /** queue_setup: one plane, sized for the pending format; the size is recorded as plane 0's. */
  function QueueSetupChan(s: Chan): (Result<int>, Chan)
    requires |s.planeSize| == 3
  {
    var r := QueueSetupSize(s.fmtNext);
    (r, if r.Ok? then s.(planeSize := s.planeSize[0 := r.value]) else s)
  }

  /** queue_setup keeps the invariant, changes nothing else, and fails exactly for a format s_fmt_vid_out would refuse. */
  lemma QueueSetupMeaning(s: Chan)
    requires ChanOk(s)
    ensures var (r, t) := QueueSetupChan(s);
      ChanOk(t) && (r.Ok? <==> VoutFormat(s.fmtNext.pixelformat)) &&
      t.(planeSize := s.planeSize) == s && (r.Ok? ==> t.planeSize[0] == r.value)
  {
    VoutFormatsQueueable(s.fmtNext);
  }

  /** buf_prepare: the length check against the format the buffer will be shown with. */
  function BufPrepareChan(s: Chan, length: int): Result<()>
  {
    var pix := if s.cfgUpdate then s.fmtNext else s.fmtCur;
    if length < PrepareMinLength(pix) then Err(EINVAL) else Ok(())
  }

  /**
   * A buffer of the size queue_setup asked for passes buf_prepare while the
   * pending format has not changed, and the descriptors show_buf writes
   * into a prepared buffer fit inside it.
   */
  lemma QueuedSizePrepares(s: Chan, length: int)
    requires ChanOk(s) && NoSizeOverflow(s.fmtNext) && s.cfgUpdate
    requires QueueSetupSize(s.fmtNext).Ok? && length >= QueueSetupSize(s.fmtNext).value
    ensures BufPrepareChan(s, length).Ok?
    ensures DescOffset(s.fmtNext) + 11 * 4 <= length
  {
    QueueSetupPassesPrepare(s.fmtNext);
    DescriptorsFit(s.fmtNext, length);
  }

  class Heo {
    var hwState: HwState
    var cfgState: CfgState
    /** cfgupdate: the format set by VIDIOC_S_FMT has not reached the hardware yet. */
    var cfgUpdate: bool
    var fmtCur: PixFormat
    var fmtNext: PixFormat
    /** The overlay window (fmt_vid_overlay.w). */
    var window: Rect
    /** Rotation in quarter turns counter-clockwise. */
    var rotation: int
    var uPlane: int
    var vPlane: int
    var planeSize: seq<int>
    var yOffset: int
    var uOffset: int
    var vOffset: int
    var cur: Option<BufInfo>
    var next: Option<BufInfo>
    /** Every register write, in order. */
    var regs: seq<RegWrite>
    /** Every vb2_buffer_done call, in order. */
    var done: seq<Completion>
    /** Descriptor words written into buffer memory, keyed by (first plane address, byte offset). */
    var desc: map<(int, int), Descriptor>
    /** Resolution of the base framebuffer layer. */
    const xres: nat
    const yres: nat
    /** The experimental module parameter (rotation support). */
    const experimental: bool

    /** The private data as a value. */
    ghost function Snap(): Chan
      reads this
    {
      Chan(hwState, cfgState, cfgUpdate, fmtCur, fmtNext, window, rotation,
           uPlane, vPlane, planeSize, yOffset, uOffset, vOffset, cur, next, regs, done, desc)
    }

    ghost predicate Valid()
      reads this
    {
      ChanOk(Snap()) && xres < 0x1_0000 && yres < 0x1_0000
    }

    /** The private data as probe leaves it: zero-initialised, nothing queued. */
    constructor(xres: nat, yres: nat, experimental: bool)
      requires xres < 0x1_0000 && yres < 0x1_0000
      ensures Valid() && fresh(this)
      ensures hwState == Idle && cfgState == Good && !cfgUpdate && rotation == 0
      ensures cur == None && next == None && regs == [] && done == [] && desc == map[]
      ensures this.xres == xres && this.yres == yres && this.experimental == experimental
    {
      this.xres := xres;
      this.yres := yres;
      this.experimental := experimental;
      hwState := Idle;
      cfgState := Good;
      cfgUpdate := false;
      fmtCur := PixFormat(0, 0, OtherFormat(0));
      fmtNext := PixFormat(0, 0, OtherFormat(0));
      window := Rect(0, 0, 0, 0);
      rotation := 0;
      uPlane, vPlane := 0, 0;
      planeSize := [0, 0, 0];
      yOffset, uOffset, vOffset := 0, 0, 0;
      cur, next := None, None;
      regs, done, desc := [], [], map[];
    }

    /** handle_irqstat, returning HEOISR. */
    method HandleIrqstat(hw: HwRead) returns (isr: bv32)
      requires WellFormedPipe(Pipeline(cur, next))
      modifies this`cur, this`next, this`done, this`regs
      ensures Snap() == IrqChan(old(Snap()), hw) && isr == hw.isr
    {
      isr := hw.isr;
      var c, n, out, log := IrqUpdate(cur, next, hwState == Idle, cfgState == Bad, hw);
      cur, next, done, regs := c, n, done + out, regs + log;
    }

    /** The interrupt handler: IRQ_HANDLED exactly when an interrupt the mask enables is pending. */
    method Irq(hw: HwRead) returns (handled: bool)
      requires WellFormedPipe(Pipeline(cur, next))
      modifies this
      ensures Snap() == IrqChan(old(Snap()), hw)
      ensures handled <==> Pending(hw.isr, hw.imr)
    {
      var imr := hw.imr;
      var isr := HandleIrqstat(hw);
      handled := Pending(isr, imr);
    }

    /** The hardware part of show_buf. */
    method ProgramDma(vb: VideoBuffer)
      requires WellFormedBuffer(vb) && 0 <= uPlane < |vb.planes| && 0 <= vPlane < |vb.planes|
      modifies this`desc, this`regs, this`hwState, this`cfgState
      ensures Snap() == ProgramDmaChan(old(Snap()), vb)
    {
      var ds := BufDescriptors(vb, fmtCur, yOffset, uOffset, vOffset, uPlane, vPlane);
      desc := StoreDescriptors(desc, vb.planes[0], DescOffset(fmtCur), ds);
      regs := regs + StartWrites(hwState == Running, cfgState == GoodLatch, ds);
      hwState, cfgState := Running, Good;
    }

    /** The slot part of show_buf. */
    method QueueSlot(b: BufInfo, hw: HwRead)
      requires WellFormedSlot(cur)
      modifies this`cur, this`next, this`done
      ensures var st := ShowStep(Pipeline(old(cur), old(next)), b, hw);
        Snap() == old(Snap()).(cur := st.pipe.cur, next := st.pipe.next, done := old(done) + st.completed)
    {
      var c, n, out := ShowSlotUpdate(cur, next, b, hw);
      cur, next, done := c, n, done + out;
    }

    /** show_buf; the kernel stops (BUG_ON) when the configuration is BAD, and videobuf2 never queues a buffer the driver holds. */
    method ShowBuf(vb: VideoBuffer, hw: HwRead)
      requires cfgState != Bad && WellFormedSlot(cur)
      requires WellFormedBuffer(vb) && 0 <= uPlane < |vb.planes| && 0 <= vPlane < |vb.planes|
      modifies this
      ensures Snap() == ShowBufChan(old(Snap()), vb, hw)
    {
      ProgramDma(vb);
      QueueSlot(BufInfo(vb, uPlane, vPlane, planeSize), hw);
    }

    /** setup_scaling_coef: the coefficient table chosen on the X axis, word by word, then the phase offsets. */
    method SetupScalingCoef(xmem: int, xsize: int) returns (xphidef: nat, yphidef: nat)
      modifies this`regs
      ensures regs == old(regs) + ScalingCoefWrites(xmem, xsize)
      ensures xphidef == XPHIDEF_DEFAULT && yphidef == YPHIDEF_DEFAULT
    {
      CoefCountsCoherent();
      var downscale := xmem >= xsize;
      var n := (HEO_COEF_END - HEO_COEF_BASE) / 4 + 1;
      var i := 0;
      while i < n
        invariant 0 <= i <= n == DOWNSCALING_COEFS
        invariant regs == old(regs) + CoefWrites(downscale)[..i]
      {
        assert CoefWrites(downscale)[..i + 1] == CoefWrites(downscale)[..i] + [RegWrite(HEO_COEF_BASE + 4 * i, Coef(downscale, i))];
        regs := regs + [RegWrite(HEO_COEF_BASE + 4 * i, Coef(downscale, i))];
        i := i + 1;
      }
      assert CoefWrites(downscale)[..i] == CoefWrites(downscale);
      xphidef, yphidef := XPHIDEF_DEFAULT, YPHIDEF_DEFAULT;
      regs := regs + [RegWrite(HEOCFG41, Pair(0, xphidef, yphidef))];
    }

    /** Writes the window, the scaling coefficients and the strides of configuration c, in that order, and sets the plane offsets. */
    method ApplyConfig(c: HwConfig)
      modifies this`regs, this`yOffset, this`uOffset, this`vOffset, this`uPlane, this`vPlane
      ensures regs == old(regs) + ConfigWrites(fmtCur, c)
      ensures (yOffset, uOffset, vOffset) == PlaneOffsets(fmtCur, c) && uPlane == 0 && vPlane == 0
    {
      var before := regs;
      regs := regs + WindowWrites(fmtCur, c);
      var xphidef, yphidef := SetupScalingCoef(c.xmem, c.win.xsize);
      regs := regs + StrideWrites(c);
      AppendAssoc(before, WindowWrites(fmtCur, c), ScalingCoefWrites(c.xmem, c.win.xsize), StrideWrites(c));
      var o := PlaneOffsets(fmtCur, c);
      yOffset, uOffset, vOffset, uPlane, vPlane := o.0, o.1, o.2, 0, 0;
    }

    /** update_config_real. */
    method UpdateConfigReal()
      requires Configurable(fmtCur, window, xres, yres) && rotation >= 0
      modifies this`regs, this`rotation, this`yOffset, this`uOffset, this`vOffset, this`uPlane, this`vPlane
      ensures Snap() == UpdateConfigRealChan(old(Snap()), xres, yres, experimental)
    {
      var r := rotation;
      if !experimental && rotation != 0 {
        r := 0;
      }
      ProgramConfig(Config(fmtCur, window, xres, yres, r), r);
    }

    /** Writes configuration c, computed for rotation r, and records r as the rotation in use. */
    method ProgramConfig(c: HwConfig, r: int)
      modifies this`regs, this`rotation, this`yOffset, this`uOffset, this`vOffset, this`uPlane, this`vPlane
      ensures Snap() == ApplyConfigChan(old(Snap()).(rotation := r), c)
    {
      ApplyConfig(c);
      rotation := r;
    }

    /** A window that fails update_config's check. */
    method RejectWindow()
      modifies this`regs, this`cfgState
      ensures Snap() == RejectChan(old(Snap()))
    {
      if cfgState == Good || cfgState == GoodLatch {
        regs := regs + [RegWrite(HEOCHDR, Bits(CHDR_CHDIS))];
      }
      cfgState := Bad;
    }

    /** The end of update_config for an accepted window. */
    method Resume(overlayOnly: bool)
      requires overlayOnly && hwState == Running && cfgState == Bad ==>
        cur.Some? && WellFormedBuffer(cur.value.vb) && uPlane == 0 && vPlane == 0
      modifies this`desc, this`regs, this`hwState, this`cfgState
      ensures Snap() == ResumeChan(old(Snap()), overlayOnly)
    {
      if overlayOnly && hwState == Running {
        if cfgState == Bad {
          cfgState, hwState := GoodLatch, Idle;
          ProgramDma(cur.value.vb);
        } else {
          regs := regs + [RegWrite(HEOCHER, Bits(CHER_UPDATEEN))];
        }
      } else {
        cfgState := GoodLatch;
      }
    }

    /** update_config. */
    method UpdateConfig(overlayOnly: bool, hw: HwRead)
      requires Valid() && UpdateConfigSafe(Snap(), overlayOnly, xres, yres)
      modifies this
      ensures Snap() == UpdateConfigChan(old(Snap()), overlayOnly, hw, xres, yres, experimental)
    {
      ghost var s := Snap();
      IrqChanMeaning(s, hw);
      IrqChanKeepsCur(s, hw);
      var _ := HandleIrqstat(hw);
      assert Snap() == IrqChan(s, hw);
      if cfgUpdate || overlayOnly {
        Reconfigure(overlayOnly);
      }
    }

    /** The block update_config runs when a format is pending or the overlay changed. */
    method Reconfigure(overlayOnly: bool)
      requires ReconfigReady(Snap(), overlayOnly, xres, yres)
      modifies this
      ensures Snap() == ReconfigChan(old(Snap()), overlayOnly, xres, yres, experimental)
    {
      if !overlayOnly {
        fmtCur, cfgUpdate := fmtNext, false;
      }
      if !WindowValid(fmtCur, window, xres, yres) {
        RejectWindow();
      } else {
        UpdateConfigReal();
        Resume(overlayOnly);
      }
    }

    /** buf_queue. */
    method BufQueue(vb: VideoBuffer, hwIrq: HwRead, hwShow: HwRead)
      requires Valid() && UpdateConfigSafe(Snap(), false, xres, yres) && WellFormedBuffer(vb)
      modifies this
      ensures Snap() == BufQueueChan(old(Snap()), vb, hwIrq, hwShow, xres, yres, experimental)
    {
      ghost var s := Snap();
      UpdateConfigMeaning(s, false, hwIrq, xres, yres, experimental);
      UpdateConfig(false, hwIrq);
      if cfgState == Bad {
        done, hwState := done + [Completion(vb, Done)], Running;
      } else {
        ShowBuf(vb, hwShow);
      }
    }

    /** streamoff (the driver's part; videobuf2's own is not modelled). */
    method StreamOff(hw: HwRead)
      requires WellFormedPipe(Pipeline(cur, next))
      modifies this
      ensures Snap() == StreamOffChan(old(Snap()), hw)
    {
      DisableChannel();
      var _ := HandleIrqstat(hw);
      Park();
    }

    /** The end of streamoff: re-enable the interrupts while a buffer is still held, and mark the channel idle. */
    method Park()
      modifies this`regs, this`hwState
      ensures regs == old(regs) + (if cur.Some? then [RegWrite(HEOIER, Bits(DMA_ADD_IRQS))] else []) && hwState == Idle
    {
      if cur.Some? {
        regs := regs + [RegWrite(HEOIER, Bits(DMA_ADD_IRQS))];
      }
      hwState := Idle;
    }

    /** Stops the channel at once (HEOCHDR.CHDIS). */
    method DisableChannel()
      modifies this`regs
      ensures regs == old(regs) + [RegWrite(HEOCHDR, Bits(CHDR_CHDIS))]
    {
      regs := regs + [RegWrite(HEOCHDR, Bits(CHDR_CHDIS))];
    }

    /** wait_prepare. */
    method WaitPrepare(hw: HwRead)
      requires WellFormedPipe(Pipeline(cur, next))
      modifies this`cur, this`next, this`done, this`regs
      ensures Snap() == WaitPrepareChan(old(Snap()), hw)
    {
      var _ := HandleIrqstat(hw);
      regs := regs + [RegWrite(HEOIER, Bits(DMA_ADD_IRQS))];
    }

    /** wait_finish. */
    method WaitFinish()
      modifies this`regs
      ensures Snap() == WaitFinishChan(old(Snap()))
    {
      regs := regs + [RegWrite(HEOIDR, Bits(DMA_ADD_IRQS))];
    }

    /** VIDIOC_S_FMT for video output. */
    method SetFmtVidOut(t: BufType, pix: PixFormat) returns (r: Result<()>)
      modifies this`fmtNext, this`cfgUpdate
      ensures (r, Snap()) == SetFmtVidOutChan(old(Snap()), t, pix)
    {
      if t != VideoOutput || !VoutFormat(pix.pixelformat) {
        return Err(EINVAL);
      }
      fmtNext, cfgUpdate := pix, true;
      r := Ok(());
    }

    /** VIDIOC_S_FMT for the overlay window. */
    method SetFmtOverlay(t: BufType, win: Rect, hw: HwRead) returns (r: Result<()>)
      requires Valid() && (t == VideoOverlay ==> UpdateConfigSafe(Snap().(window := win), true, xres, yres))
      modifies this
      ensures (r, Snap()) == SetFmtOverlayChan(old(Snap()), t, win, hw, xres, yres, experimental)
    {
      if t != VideoOverlay {
        return Err(EINVAL);
      }
      window := win;
      UpdateConfig(true, hw);
      r := Ok(());
    }

    /** VIDIOC_G_CTRL. */
    method GetCtrl(id: CtrlId) returns (r: Result<int>)
      ensures r == GetCtrlChan(Snap(), id)
      ensures r.Ok? <==> id == Rotate
      ensures r.Ok? ==> r.value == 90 * rotation
    {
      if id != Rotate {
        return Err(EINVAL);
      }
      r := Ok(90 * rotation);
    }

    /** VIDIOC_S_CTRL, with the angle check of queryctrl's range. */
    method SetCtrl(id: CtrlId, v: int, hw: HwRead) returns (r: Result<()>)
      requires Valid() && (id == Rotate && RotateValueAccepted(v) ==> UpdateConfigSafe(Snap().(rotation := v / 90), true, xres, yres))
      modifies this
      ensures (r, Snap()) == SetCtrlChan(old(Snap()), id, v, hw, xres, yres, experimental)
    {
      if id != Rotate || !RotateValueAccepted(v) {
        return Err(EINVAL);
      }
      rotation := v / 90;
      UpdateConfig(true, hw);
      r := Ok(());
    }

    /** queue_setup, returning the size of the one plane and the number of planes. */
    method QueueSetup() returns (r: Result<int>, numPlanes: nat)
      requires |planeSize| == 3
      modifies this`planeSize
      ensures (r, Snap()) == QueueSetupChan(old(Snap()))
      ensures numPlanes == 1
    {
      numPlanes := 1;
      r := QueueSetupSize(fmtNext);
      if r.Ok? {
        planeSize := planeSize[0 := r.value];
      }
    }

    /** buf_prepare for a buffer whose plane 0 is length bytes long. */
    method BufPrepare(length: int) returns (r: Result<()>)
      ensures r == BufPrepareChan(Snap(), length)
      ensures r.Ok? <==> length >= PrepareMinLength(if cfgUpdate then fmtNext else fmtCur)
    {
      var pix := fmtCur;
      if cfgUpdate {
        pix := fmtNext;
      }
      if length < PrepareMinLength(pix) {
        return Err(EINVAL);
      }
      r := Ok(());
    }
  }
}
