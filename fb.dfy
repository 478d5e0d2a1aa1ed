// The frame-buffer vocabulary shared by the LCD controller drivers: the
// variable and fixed screen information of include/linux/fb.h, as far as
// the Atmel drivers read or write it.
module Fb {
  import opened Common

  /** `struct fb_bitfield`: where a colour channel sits in a pixel. */
  datatype Bitfield = Bitfield(offset: bv32, length: bv32, msbRight: bv32)

  /** `struct fb_var_screeninfo` (all fields are `__u32`). */
  datatype VarScreen = VarScreen(
    xres: nat, yres: nat, xresVirtual: nat, yresVirtual: nat, xoffset: nat, yoffset: nat,
    bitsPerPixel: nat, grayscale: nat,
    red: Bitfield, green: Bitfield, blue: Bitfield, transp: Bitfield,
    nonstd: bv32, pixclock: nat,
    leftMargin: nat, rightMargin: nat, upperMargin: nat, lowerMargin: nat, hsyncLen: nat, vsyncLen: nat,
    sync: bv32)

  /** The values a numeric `__u32` field of the variable screen information can hold. */
  predicate VarU32(v: VarScreen)
  {
    IsU32(v.xres) && IsU32(v.yres) && IsU32(v.xresVirtual) && IsU32(v.yresVirtual) &&
    IsU32(v.xoffset) && IsU32(v.yoffset) && IsU32(v.bitsPerPixel) && IsU32(v.pixclock) &&
    IsU32(v.leftMargin) && IsU32(v.rightMargin) && IsU32(v.upperMargin) && IsU32(v.lowerMargin) &&
    IsU32(v.hsyncLen) && IsU32(v.vsyncLen)
  }

  /** The fields of `struct fb_videomode` that a mode gives a screen. */
  datatype Videomode = Videomode(
    xres: nat, yres: nat, pixclock: nat,
    leftMargin: nat, rightMargin: nat, upperMargin: nat, lowerMargin: nat, hsyncLen: nat, vsyncLen: nat,
    sync: bv32)

  /**
   * fb_videomode_to_var (fbdev core): the mode's geometry, timings and sync,
   * a virtual screen the size of the visible one and no panning; the depth,
   * grayscale, nonstd and the colour fields stay the screen's own.
   */
  function VideomodeToVar(v: VarScreen, m: Videomode): VarScreen
  {
    v.(xres := m.xres, yres := m.yres, xresVirtual := m.xres, yresVirtual := m.yres, xoffset := 0, yoffset := 0,
       pixclock := m.pixclock, leftMargin := m.leftMargin, rightMargin := m.rightMargin,
       upperMargin := m.upperMargin, lowerMargin := m.lowerMargin, hsyncLen := m.hsyncLen, vsyncLen := m.vsyncLen,
       sync := m.sync)
  }

  /** The colour model of `struct fb_fix_screeninfo`. */
  datatype Visual = Mono01 | PseudoColor | TrueColor

  /** The parts of `struct fb_fix_screeninfo` the drivers set or read. */
  datatype FixScreen = FixScreen(smemStart: nat, smemLen: nat, lineLength: nat, visual: Visual)

  /** FB_SYNC_HOR_HIGH_ACT and FB_SYNC_VERT_HIGH_ACT. */
  const FB_SYNC_HOR_HIGH_ACT: bv32 := 1
  const FB_SYNC_VERT_HIGH_ACT: bv32 := 2

  /** The FB_BLANK_* modes. */
  const FB_BLANK_UNBLANK: int := 0
  const FB_BLANK_NORMAL: int := 1
  const FB_BLANK_VSYNC_SUSPEND: int := 2
  const FB_BLANK_HSYNC_SUSPEND: int := 3
  const FB_BLANK_POWERDOWN: int := 4
}
