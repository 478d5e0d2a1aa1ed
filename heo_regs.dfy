// Register map of the Atmel HLCDC high-end overlay (HEO) layer, as the
// at91sam9x5 video-overlay driver programs it, and the field packing helpers
// valtomask/valfrommask.
module HeoRegs {

  // Register offsets
  const HEOCHER: nat := 0x00
  const HEOCHDR: nat := 0x04
  const HEOCHSR: nat := 0x08
  const HEOIER: nat := 0x0c
  const HEOIDR: nat := 0x10
  const HEOIMR: nat := 0x14
  const HEOISR: nat := 0x18
  const HEOHEAD: nat := 0x1c
  const HEOUHEAD: nat := 0x2c
  const HEOVHEAD: nat := 0x3c
  const HEOADDR: nat := 0x20
  const HEOUADDR: nat := 0x30
  const HEOVADDR: nat := 0x40
  const HEOCTRL: nat := 0x24
  const HEOUCTRL: nat := 0x34
  const HEOVCTRL: nat := 0x44
  const HEONEXT: nat := 0x28
  const HEOUNEXT: nat := 0x38
  const HEOVNEXT: nat := 0x48
  const HEOCFG1: nat := 0x50
  const HEOCFG2: nat := 0x54
  const HEOCFG3: nat := 0x58
  const HEOCFG4: nat := 0x5c
  const HEOCFG5: nat := 0x60
  const HEOCFG6: nat := 0x64
  const HEOCFG7: nat := 0x68
  const HEOCFG8: nat := 0x6c
  const HEOCFG12: nat := 0x7c
  const HEOCFG13: nat := 0x80
  const HEOCFG14: nat := 0x84
  const HEOCFG15: nat := 0x88
  const HEOCFG16: nat := 0x8c
  const HEO_COEF_BASE: nat := 0x90
  const HEO_COEF_END: nat := 0xEC
  const HEOCFG41: nat := 0xF0

  // Register bits
  const CHER_CHEN: bv32 := 0x1
  const CHER_UPDATEEN: bv32 := 0x2
  const CHER_A2QEN: bv32 := 0x4
  const CHDR_CHDIS: bv32 := 0x1
  const CHSR_CHSR: bv32 := 0x1
  const IxR_DMA: bv32 := 0x4
  const IxR_ADD: bv32 := 0x10
  const IxR_UDMA: bv32 := 0x400
  const IxR_UADD: bv32 := 0x1000
  const IxR_VDMA: bv32 := 0x40000
  const IxR_VADD: bv32 := 0x100000
  const xCTRL_DFETCH: bv32 := 0x1
  const CFG1_YUVEN: bv32 := 0x2
  const CFG1_YUVMODE_12YCBCRP: bv32 := 0x8000
  const CFG1_YUVMODE_16YCBCR_0: bv32 := 0x1000
  const CFG1_YUVMODE_16YCBCR_1: bv32 := 0x2000
  const CFG12_GAEN: bv32 := 0x20
  const CFG12_OVR: bv32 := 0x80
  const CFG12_DMA: bv32 := 0x100
  const CFG12_REP: bv32 := 0x200
  const CFG12_GA: bv32 := 0x00ff0000
  const CFG13_SCALEN: bv32 := 0x80000000
  const XPHIDEF_DEFAULT: nat := 4
  const YPHIDEF_DEFAULT: nat := 4

  /** The six DMA/ADD interrupt sources the driver enables and disables together. */
  const DMA_ADD_IRQS: bv32 := IxR_ADD | IxR_DMA | IxR_UADD | IxR_UDMA | IxR_VADD | IxR_VDMA

  /** A register field: its mask and the position of the mask's lowest set bit (__ffs). */
  datatype Field = Field(mask: bv32, shift: bv32)

  predicate WellFormed(f: Field)
  {
    f.shift < 32 && f.mask != 0 &&
    (f.mask >> f.shift) << f.shift == f.mask && (f.mask >> f.shift) & 1 == 1
  }

  const XPOS := Field(0x0000_07ff, 0)
  const YPOS := Field(0x07ff_0000, 16)
  const XSIZE := Field(0x0000_07ff, 0)
  const YSIZE := Field(0x07ff_0000, 16)
  const XMEMSIZE := Field(0x0000_07ff, 0)
  const YMEMSIZE := Field(0x07ff_0000, 16)
  const XFACTOR := Field(0x0000_1fff, 0)
  const YFACTOR := Field(0x1fff_0000, 16)
  const XPHIDEF := Field(0x0000_0007, 0)
  const YPHIDEF := Field(0x0007_0000, 16)
  const STRIDE := Field(0xffff_ffff, 0)

  /** valtomask: shift a value into a field, dropping the bits that do not fit. */
  function ValToMask(v: bv32, f: Field): bv32
    requires f.shift < 32
  {
    (v << f.shift) & f.mask
  }

  /** valfrommask: extract a field. */
  function ValFromMask(r: bv32, f: Field): bv32
    requires f.shift < 32
  {
    (r & f.mask) >> f.shift
  }

  lemma FieldsWellFormed()
    ensures WellFormed(XPOS) && WellFormed(YPOS) && WellFormed(XFACTOR) && WellFormed(YFACTOR)
    ensures WellFormed(XPHIDEF) && WellFormed(YPHIDEF) && WellFormed(STRIDE)
    ensures XPOS.mask & YPOS.mask == 0 && XFACTOR.mask & YFACTOR.mask == 0
    ensures XPHIDEF.mask & YPHIDEF.mask == 0 && (XFACTOR.mask | YFACTOR.mask) & CFG13_SCALEN == 0
  {
  }

  /**
   * Packing two disjoint fields into one word loses nothing: each field reads
   * back as the value's low bits that fit the field's width.
   */
  lemma PackPosition(a: bv32, b: bv32)
    ensures ValFromMask(ValToMask(a, XPOS) | ValToMask(b, YPOS), XPOS) == a & 0x7ff
    ensures ValFromMask(ValToMask(a, XPOS) | ValToMask(b, YPOS), YPOS) == b & 0x7ff
  {
  }

  lemma PackFactor(a: bv32, b: bv32)
    ensures ValFromMask(ValToMask(a, XFACTOR) | ValToMask(b, YFACTOR), XFACTOR) == a & 0x1fff
    ensures ValFromMask(ValToMask(a, XFACTOR) | ValToMask(b, YFACTOR), YFACTOR) == b & 0x1fff
  {
  }
}
