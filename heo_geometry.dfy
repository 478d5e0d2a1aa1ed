// Integer geometry of the HEO overlay driver: rotation strides, the
// fixed-point scaling factor, overlay window checks and clamping, buffer
// sizes and the V4L2 rotation control value check.
module HeoGeometry {
  import opened Common

  datatype PixelFormat = YUV420 | UYVY | YUYV | OtherFormat(fourcc: nat)

  /** The fields of v4l2_pix_format the driver reads (width and height are __u32). */
  datatype PixFormat = PixFormat(width: nat, height: nat, pixelformat: PixelFormat)

  /** v4l2_rect: signed 32-bit position and size of the overlay window. */
  datatype Rect = Rect(left: int, top: int, width: int, height: int)

  /** Results of at91sam9x5_video_params, all u32. */
  datatype Strides = Strides(xstride: int, pstride: int, tloffset: int)

  // ---------------------------------------------------------------------
  // Rotation strides

  /** Offset of the four frame corners, counter-clockwise from the top left (e[]). */
  function Corner(w: int, h: int, k: nat): int
    requires k < 4
  {
    if k == 0 then 0
    else if k == 1 then w * (h - 1)
    else if k == 2 then (w - 1) + w * (h - 1)
    else w - 1
  }

  /** Offset of the pixel that follows each corner along the first scanned column or row (en[]). */
  function Neighbour(w: int, h: int, k: nat): int
    requires k < 4
  {
    if k == 0 then w
    else if k == 1 then 1 + w * (h - 1)
    else if k == 2 then (w - 1) + w * (h - 2)
    else w - 2
  }

  /**
   * at91sam9x5_video_params. The offsets po(x, y) are computed in unsigned
   * 32-bit arithmetic, which is arithmetic modulo 2^32. The corner index
   * (rotation + r) % 4 is a C remainder: a negative rotation would index e[]
   * before its start, so the model requires a non-negative rotation.
   */
  function VideoParams(width: nat, height: nat, rotation: int): (s: Strides)
    requires rotation >= 0
    ensures IsU32(s.xstride) && IsU32(s.pstride) && IsU32(s.tloffset)
  {
    var r0 := CRem(rotation + 0, 4);
    var r3 := CRem(rotation + 3, 4);
    Strides(Wrap32(Wrap32(Neighbour(width, height, r0)) - Wrap32(Corner(width, height, r3))),
            Wrap32(Wrap32(Corner(width, height, r3)) - Wrap32(Neighbour(width, height, r3))),
            Wrap32(Corner(width, height, r0)))
  }

  /** Number of pixels in one output line when the frame is shown rotated by 90*r degrees. */
  function LineLength(w: int, h: int, r: nat): int
  {
    if r % 2 == 0 then w else h
  }

  /**
   * Reference definition of a rotated display: the buffer offset of the i-th
   * pixel of the j-th output line when the frame is shown rotated by 90*r degrees
   * (counter-clockwise).
   */
  function ScanOffset(w: int, h: int, r: nat, i: int, j: int): int
    requires r < 4
  {
    if r == 0 then i + w * j
    else if r == 1 then j + w * (h - 1 - i)
    else if r == 2 then (w - 1 - i) + w * (h - 1 - j)
    else (w - 1 - j) + w * i
  }

  lemma Distrib(w: int, a: int, b: int)
    ensures w * (a + b) == w * a + w * b
  {
  }

  /** Exact (unwrapped) strides of rotation r: corner differences equal scan differences. */
  lemma {:induction false} WalkExact(w: int, h: int, r: nat, i: int, j: int)
    requires r < 4
    ensures Corner(w, h, (r + 3) % 4) - Neighbour(w, h, (r + 3) % 4) ==
            ScanOffset(w, h, r, i + 1, j) - ScanOffset(w, h, r, i, j)
    ensures Neighbour(w, h, r) - Corner(w, h, (r + 3) % 4) ==
            ScanOffset(w, h, r, 0, j + 1) - ScanOffset(w, h, r, LineLength(w, h, r) - 1, j)
  {
    if r == 0 {
      Distrib(w, j, 1);
    } else if r == 1 {
      Distrib(w, h - 1 - (i + 1), 1);
      assert w * (h - 1 - (h - 1)) == 0;
    } else if r == 2 {
      Distrib(w, h - 1 - (j + 1), 1);
      Distrib(w, h - 2, 1);
    } else {
      Distrib(w, i, 1);
      Distrib(w, h - 2, 1);
    }
  }

  /**
   * The hardware starts at tloffset, adds pstride between pixels of a line and
   * xstride from the last pixel of a line to the first pixel of the next line;
   * the values VideoParams computes produce exactly the rotated scan.
   */
  lemma {:induction false} DisplayWalk(w: nat, h: nat, r: nat, i: int, j: int)
    requires r < 4
    ensures VideoParams(w, h, r).tloffset == Wrap32(ScanOffset(w, h, r, 0, 0))
    ensures VideoParams(w, h, r).pstride == Wrap32(ScanOffset(w, h, r, i + 1, j) - ScanOffset(w, h, r, i, j))
    ensures VideoParams(w, h, r).xstride ==
            Wrap32(ScanOffset(w, h, r, 0, j + 1) - ScanOffset(w, h, r, LineLength(w, h, r) - 1, j))
  {
    var r3 := (r + 3) % 4;
    assert CRem(r + 0, 4) == r && CRem(r + 3, 4) == r3;
    var c0, c3, n3, n0 := Corner(w, h, r), Corner(w, h, r3), Neighbour(w, h, r3), Neighbour(w, h, r);
    assert VideoParams(w, h, r) == Strides(Wrap32(Wrap32(n0) - Wrap32(c3)), Wrap32(Wrap32(c3) - Wrap32(n3)), Wrap32(c0));
    WalkExact(w, h, r, i, j);
    WrapSubIs(c3, n3, ScanOffset(w, h, r, i + 1, j) - ScanOffset(w, h, r, i, j));
    WrapSubIs(n0, c3, ScanOffset(w, h, r, 0, j + 1) - ScanOffset(w, h, r, LineLength(w, h, r) - 1, j));
    assert c0 == ScanOffset(w, h, r, 0, 0);
  }

  lemma WrapSubIs(a: int, b: int, d: int)
    requires a - b == d
    ensures Wrap32(Wrap32(a) - Wrap32(b)) == Wrap32(d)
  {
    WrapSub(a, b);
  }

  /** With no rotation the frame is scanned in memory order: strides 1 and 1, start 0. */
  lemma {:induction false} NoRotationIsIdentity(w: nat, h: nat)
    ensures VideoParams(w, h, 0) == Strides(1, 1, 0)
  {
    var p := VideoParams(w, h, 0);
    assert CRem(0 + 0, 4) == 0 && CRem(0 + 3, 4) == 3;
    assert p.xstride == Wrap32(Wrap32(w) - Wrap32(w - 1));
    assert p.pstride == Wrap32(Wrap32(w - 1) - Wrap32(w - 2));
    assert p.tloffset == Wrap32(0);
    WrapSub(w, w - 1);
    WrapSub(w - 1, w - 2);
    WrapIdem(1);
    WrapIdem(0);
  }

  predicate InFrame(w: int, h: int, x: int) { 0 <= x < w * h }

  /**
   * For frames of at least 2x2 pixels, all corner and neighbour offsets lie
   * inside the frame, so when the frame fits the 32-bit address space none of
   * them wraps.
   */
  lemma {:induction false} OffsetsInsideFrame(w: nat, h: nat)
    requires w >= 2 && h >= 2
    ensures InFrame(w, h, Corner(w, h, 0)) && InFrame(w, h, Corner(w, h, 1))
    ensures InFrame(w, h, Corner(w, h, 2)) && InFrame(w, h, Corner(w, h, 3))
    ensures InFrame(w, h, Neighbour(w, h, 0)) && InFrame(w, h, Neighbour(w, h, 1))
    ensures InFrame(w, h, Neighbour(w, h, 2)) && InFrame(w, h, Neighbour(w, h, 3))
  {
    var n, a, b := w * h, w * (h - 1), w * (h - 2);
    FrameProducts(w, h);
    assert a == n - w && b == n - 2 * w && n >= 2 * w;
  }

  /** The start offset is the corner the rotated scan begins at, a pixel of the frame. */
  lemma {:induction false} StartInsideFrame(w: nat, h: nat, r: nat)
    requires w >= 2 && h >= 2 && w * h <= TWO32 && r < 4
    ensures VideoParams(w, h, r).tloffset == Corner(w, h, r) && InFrame(w, h, Corner(w, h, r))
  {
    OffsetsInsideFrame(w, h);
    assert CRem(r + 0, 4) == r;
    var c := Corner(w, h, r);
    assert InFrame(w, h, c) by {
      if r == 0 {} else if r == 1 {} else if r == 2 {} else {}
    }
    WrapIdem(c);
  }

  lemma FrameProducts(w: nat, h: nat)
    requires h >= 2
    ensures w * (h - 1) == w * h - w && w * (h - 2) == w * h - 2 * w && w * h >= 2 * w
  {
    Distrib(w, h - 1, 1);
    Distrib(w, h - 2, 2);
    MulNonneg(w, h - 2);
  }

  // ---------------------------------------------------------------------
  // Scaling factor (SAMA5 variant)

  /** First estimate of the 2048-based scale factor, before the correction step, in exact arithmetic. */
  function FirstEstimate(mem: nat, size: nat, phidef: nat): int
    requires size > 0
  {
    (2048 * mem - 256 * phidef) / size + 1
  }

  /** Memory extent a factor would cover, in exact arithmetic. */
  function MemCovered(factor: int, size: nat, phidef: nat): int
  {
    (factor * size + 256 * phidef) / 2048
  }

  /**
   * setup_scaling_factor: estimate the factor, then decrement it once if it
   * would read past the memory size. Every step is unsigned 32-bit
   * arithmetic; a zero size is a division by zero in the source.
   */
  function ScalingFactor(mem: nat, size: nat, phidef: nat): (f: int)
    requires IsU32(mem) && IsU32(size) && IsU32(phidef) && size > 0
    ensures IsU32(f)
  {
    var f0 := Wrap32(Wrap32(2048 * mem - 256 * phidef) / size + 1);
    var memMax := Wrap32(f0 * size + 256 * phidef) / 2048;
    if memMax > mem then Wrap32(f0 - 1) else f0
  }

  lemma {:induction false} ScalingFactorBound(mem: nat, size: nat, phidef: nat)
    requires size > 0 && 256 * phidef <= 2048 * mem < TWO32 && IsU32(size) && IsU32(phidef)
    requires FirstEstimate(mem, size, phidef) * size + 256 * phidef < TWO32
    ensures var f := ScalingFactor(mem, size, phidef);
      var f0 := FirstEstimate(mem, size, phidef);
      MemCovered(f, size, phidef) <= mem &&
      f0 - 1 <= f <= f0 && f >= 0 &&
      (f == f0 <==> MemCovered(f0, size, phidef) <= mem) &&
      (size < 2048 ==> f == f0)
  {
    var x := 2048 * mem - 256 * phidef;
    var q := x / size;
    var f0 := FirstEstimate(mem, size, phidef);
    QuotientBounds(x, size);
    assert f0 == q + 1;
    WrapIdem(x);
    WrapIdem(q + 1);
    WrapIdem(q);
    var prod := f0 * size + 256 * phidef;
    WrapIdem(prod);
    assert MemCovered(f0 - 1, size, phidef) == (q * size + 256 * phidef) / 2048;
    assert MemCovered(f0, size, phidef) == (q * size + size + 256 * phidef) / 2048;
  }

  /** Division facts for the first estimate, with the products named once. */
  lemma QuotientBounds(x: nat, size: nat)
    requires size > 0
    ensures var q := x / size;
      q >= 0 && q * size <= x < q * size + size && (q + 1) * size == q * size + size &&
      (q + 1) * size >= q + 1 && (q + 1 - 1) * size == q * size
  {
    var q := x / size;
    Distrib(size, q, 1);
    MulNonneg(q, size - 1);
    Distrib(q, size, 1);
  }

  // ---------------------------------------------------------------------
  // Overlay window

  /**
   * The window check of update_config: both the window and the output frame
   * are non-empty, and the window lies inside the base layer of xres x yres
   * pixels, starting at least 5 pixels before its right and bottom edges.
   */
  predicate WindowValid(pix: PixFormat, rect: Rect, xres: nat, yres: nat)
  {
    !(rect.width <= 0 || rect.height <= 0 || pix.width == 0 || pix.height == 0 ||
      rect.left < 0 || rect.top < 0 ||
      rect.left >= xres - 5 || rect.top >= yres - 5 ||
      rect.left + rect.width > xres || rect.top + rect.height > yres)
  }

  /** Clamped hardware position and size of the overlay (HEOCFG2 / HEOCFG3 inputs, all unsigned). */
  datatype HwWindow = HwWindow(xpos: int, ypos: int, xsize: int, ysize: int)

  /**
   * update_config_real's clamping. The right/bottom edge is a signed value
   * compared with the unsigned resolution, so C converts it to unsigned first.
   */
  function ClampWindow(rect: Rect, xres: nat, yres: nat): (hw: HwWindow)
    requires IsU32(xres) && IsU32(yres)
  {
    var right, bottom := rect.left + rect.width, rect.top + rect.height;
    var xpos := if rect.left < 0 then 0 else Wrap32(rect.left);
    var ypos := if rect.top < 0 then 0 else Wrap32(rect.top);
    HwWindow(xpos, ypos,
             if Wrap32(right) > xres then Wrap32(xres - xpos) else Wrap32(right - xpos),
             if Wrap32(bottom) > yres then Wrap32(yres - ypos) else Wrap32(bottom - ypos))
  }

  /** Pixel width and height of the frame as the hardware reads it: swapped for odd rotations. */
  function RotatedSize(pix: PixFormat, rotation: int): (int, int)
  {
    if rotation % 2 == 1 then (pix.height, pix.width) else (pix.width, pix.height)
  }

  /** hwxmem_size / hwymem_size: the memory extent shown in the clamped window. */
  function MemSize(pix: PixFormat, rotation: int, rect: Rect, hw: HwWindow): (int, int)
    requires 0 < rect.width < TWO32 && 0 < rect.height < TWO32
  {
    var (rw, rh) := RotatedSize(pix, rotation);
    (Wrap32(rw * hw.xsize) / Wrap32(rect.width), Wrap32(rh * hw.ysize) / Wrap32(rect.height))
  }

  /**
   * A window that passes the check is not clamped at all, so the whole frame
   * (rotated) is fetched from memory and scaled into the window.
   */
  lemma {:induction false} ValidWindowUnclamped(pix: PixFormat, rect: Rect, xres: nat, yres: nat, rotation: int)
    requires IsU32(xres) && IsU32(yres) && WindowValid(pix, rect, xres, yres)
    requires xres < 0x1_0000 && yres < 0x1_0000 && pix.width < 0x1_0000 && pix.height < 0x1_0000
    ensures ClampWindow(rect, xres, yres) == HwWindow(rect.left, rect.top, rect.width, rect.height)
    ensures MemSize(pix, rotation, rect, ClampWindow(rect, xres, yres)) == RotatedSize(pix, rotation)
  {
    ValidWindowNotClamped(pix, rect, xres, yres);
    var (rw, rh) := RotatedSize(pix, rotation);
    ScaleBack(rw, rect.width);
    ScaleBack(rh, rect.height);
  }

  /** The clamping leaves a window that passes the check exactly as it is. */
  lemma ValidWindowNotClamped(pix: PixFormat, rect: Rect, xres: nat, yres: nat)
    requires IsU32(xres) && IsU32(yres) && WindowValid(pix, rect, xres, yres)
    requires xres < 0x1_0000 && yres < 0x1_0000
    ensures ClampWindow(rect, xres, yres) == HwWindow(rect.left, rect.top, rect.width, rect.height)
  {
    WrapIdem(rect.left);
    WrapIdem(rect.top);
    WrapIdem(rect.left + rect.width);
    WrapIdem(rect.top + rect.height);
  }

  /** (a * b) / b == a for 16-bit operands, with the product in 32-bit unsigned arithmetic. */
  lemma ScaleBack(a: nat, b: nat)
    requires a < 0x1_0000 && 0 < b < 0x1_0000
    ensures Wrap32(a * b) / Wrap32(b) == a
  {
    MulBound(a, b, 0x1_0000, 0x1_0000);
    assert Wrap32(a * b) == a * b && Wrap32(b) == b;
    MulDivCancel(a, b);
  }

  lemma MulBound(a: nat, b: nat, ma: nat, mb: nat)
    requires a < ma && b <= mb
    ensures a * b < ma * mb || b == 0
  {
    if b > 0 {
      assert a * b <= a * mb;
      assert a * mb < ma * mb;
    }
  }

  // ---------------------------------------------------------------------
  // Buffer sizes and the descriptor trailer

  /**
   * Bytes of a 4:2:0 frame of the format: luma plus two quarter-size chroma
   * planes, in u32 arithmetic. The chroma product wraps before it is halved;
   * the luma product's wrap is absorbed by the outer reduction.
   */
  function FrameBytes(pix: PixFormat): int
  {
    Wrap32(pix.width * pix.height + Wrap32(Align(pix.width, 2) * Align(pix.height, 2)) / 2)
  }

  /** A 65536 x 65536 frame: both products wrap to 0, so the frame is 0 bytes and buffers are 416 bytes. */
  lemma ChromaWrapsBeforeHalving()
    ensures FrameBytes(PixFormat(65536, 65536, YUV420)) == 0
    ensures QueueSetupSize(PixFormat(65536, 65536, YUV420)) == Ok(416)
    ensures PrepareMinLength(PixFormat(65536, 65536, YUV420)) == 416
  {
    var pix := PixFormat(65536, 65536, YUV420);
    assert Align(65536, 2) == 65536;
    assert 65536 * 65536 == TWO32;
    assert Wrap32(TWO32) == 0;
    assert Wrap32(TWO32 + 0) == 0;
  }

  /** Offset of the three DMA descriptors in a buffer (the 64-byte aligned end of the frame). */
  function DescOffset(pix: PixFormat): int
  {
    Wrap32(Align(FrameBytes(pix), 64))
  }

  /** vb_queue_setup: the buffer size requested for a format, or -EINVAL. */
  function QueueSetupSize(pix: PixFormat): Result<int>
  {
    match pix.pixelformat
    case YUV420 => Ok(Wrap32(FrameBytes(pix) + 9 * 32 + 128))
    case UYVY => Ok(Wrap32(pix.width * pix.height + Align(pix.width, 2) * Align(pix.height, 2) + 9 * 32 + 128))
    case YUYV => Ok(Wrap32(pix.width * pix.height + Align(pix.width, 2) * Align(pix.height, 2) + 9 * 32 + 128))
    case OtherFormat(_) => Err(EINVAL)
  }

  /** vb_buf_prepare: the smallest buffer length accepted (for every format). */
  function PrepareMinLength(pix: PixFormat): int
  {
    Wrap32(FrameBytes(pix) + 9 * 32 + 128)
  }

  predicate NoSizeOverflow(pix: PixFormat)
  {
    pix.width * pix.height + Align(pix.width, 2) * Align(pix.height, 2) + 9 * 32 + 128 < TWO32
  }

  lemma AlignBounds(x: nat, a: nat)
    requires a > 0
    ensures x <= Align(x, a) < x + a && Align(x, a) % a == 0
  {
    var q := (x + a - 1) / a;
    MulDivCancel(q, a);
    assert Align(x, a) == q * a;
  }

  /**
   * Buffers sized by queue_setup for an accepted format pass buf_prepare's
   * length check, and exactly so for YUV 4:2:0.
   */
  lemma {:induction false} QueueSetupPassesPrepare(pix: PixFormat)
    requires NoSizeOverflow(pix)
    ensures QueueSetupSize(pix).Ok? <==> pix.pixelformat in {YUV420, UYVY, YUYV}
    ensures QueueSetupSize(pix).Ok? ==> QueueSetupSize(pix).value >= PrepareMinLength(pix)
    ensures pix.pixelformat == YUV420 ==> QueueSetupSize(pix) == Ok(PrepareMinLength(pix))
  {
    var wh, a := pix.width * pix.height, Align(pix.width, 2) * Align(pix.height, 2);
    MulNonneg(pix.width, pix.height);
    MulNonneg(Align(pix.width, 2), Align(pix.height, 2));
    WrapIdem(a);
    assert FrameBytes(pix) == Wrap32(wh + a / 2);
    SetupSizes(wh, a);
  }

  /** The arithmetic behind QueueSetupPassesPrepare, for luma size wh and aligned area a. */
  lemma SetupSizes(wh: int, a: int)
    requires 0 <= wh && 0 <= a && wh + a + 9 * 32 + 128 < TWO32
    ensures Wrap32(Wrap32(wh + a / 2) + 9 * 32 + 128) == Wrap32(wh + a / 2) + 9 * 32 + 128
    ensures Wrap32(wh + a + 9 * 32 + 128) >= Wrap32(Wrap32(wh + a / 2) + 9 * 32 + 128)
  {
    WrapIdem(wh + a / 2);
    WrapIdem(wh + a / 2 + 416);
    WrapIdem(wh + a + 416);
  }

  /**
   * The three descriptors (11 words from DescOffset) lie inside every buffer
   * that buf_prepare accepts for the same format, after the 4:2:0 frame data.
   */
  lemma {:induction false} DescriptorsFit(pix: PixFormat, length: int)
    requires NoSizeOverflow(pix) && length >= PrepareMinLength(pix)
    ensures FrameBytes(pix) <= DescOffset(pix) && DescOffset(pix) % 64 == 0
    ensures DescOffset(pix) + 11 * 4 <= length
  {
    SizesExact(pix);
    AlignBounds(FrameBytes(pix), 64);
  }

  /** Without overflow, none of the size computations wraps. */
  lemma SizesExact(pix: PixFormat)
    requires NoSizeOverflow(pix)
    ensures 0 <= FrameBytes(pix) && FrameBytes(pix) + 416 < TWO32
    ensures PrepareMinLength(pix) == FrameBytes(pix) + 416
    ensures DescOffset(pix) == Align(FrameBytes(pix), 64)
  {
    var wh, a := pix.width * pix.height, Align(pix.width, 2) * Align(pix.height, 2);
    MulNonneg(pix.width, pix.height);
    MulNonneg(Align(pix.width, 2), Align(pix.height, 2));
    WrapIdem(a);
    assert FrameBytes(pix) == Wrap32(wh + a / 2);
    FrameArith(wh, a);
  }

  /** The frame size arithmetic for luma size wh and aligned area a, away from 2^32. */
  lemma FrameArith(wh: int, a: int)
    requires 0 <= wh && 0 <= a && wh + a + 416 < TWO32
    ensures var fb := Wrap32(wh + a / 2);
      fb == wh + a / 2 && fb + 416 < TWO32 && Wrap32(fb + 416) == fb + 416 &&
      Wrap32(Align(fb, 64)) == Align(fb, 64)
  {
    var fb := wh + a / 2;
    WrapIdem(fb);
    WrapIdem(fb + 416);
    AlignBounds(fb, 64);
    WrapIdem(Align(fb, 64));
  }

  // ---------------------------------------------------------------------
  // V4L2_CID_ROTATE

  /** The check s_ctrl applies, with C's truncating division and remainder. */
  predicate RotateValueAcceptedAsWritten(v: int)
  {
    CDiv(v, 90) * 90 == v && CRem(CDiv(v, 90), 4) == CDiv(v, 90)
  }

  /** The values queryctrl advertises for the control: 0 to 270 in steps of 90. */
  predicate RotateValueAccepted(v: int)
  {
    0 <= v && v % 90 == 0 && v / 90 < 4
  }

  /** The source's check also admits the three negative multiples of 90. */
  lemma {:induction false} RotateAsWrittenAccepts(v: int)
    ensures RotateValueAcceptedAsWritten(v) <==> v in {-270, -180, -90, 0, 90, 180, 270}
  {
    var q := CDiv(v, 90);
    if RotateValueAcceptedAsWritten(v) {
      assert v == 90 * q;
      assert -4 < q < 4;
      assert q in {-3, -2, -1, 0, 1, 2, 3};
    }
  }

  /**
   * Finding: -90 passes the check and stores rotation -1, whose first corner
   * index (rotation + 0) % 4 is -1 under C's remainder: e[-1].
   */
  lemma NegativeRotationIndexesBeforeCorners()
    ensures RotateValueAcceptedAsWritten(-90) && CDiv(-90, 90) == -1
    ensures CRem(CDiv(-90, 90) + 0, 4) == -1
  {
  }

  /** The corrected check admits exactly the advertised values, each stored as a rotation in 0..3 that reads back as the value. */
  lemma {:induction false} RotateValueAcceptedIsAdvertised(v: int)
    ensures RotateValueAccepted(v) <==> v in {0, 90, 180, 270}
    ensures RotateValueAccepted(v) ==> RotateValueAcceptedAsWritten(v) && 0 <= CDiv(v, 90) < 4 && 90 * CDiv(v, 90) == v
  {
    if RotateValueAccepted(v) {
      assert v / 90 in {0, 1, 2, 3};
    }
  }
}
