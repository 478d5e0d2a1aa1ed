// The OmniVision OV7740 VGA camera sensor driver (SoC camera subdevice,
// drivers/media/i2c/soc_camera/ov7740.c): register tables written up to an
// end marker, read-modify-write of single control bits, window selection,
// media-bus format negotiation and the product-ID check.
//
// The sensor is reached over SMBus: every byte read is an input, every byte
// write is appended to a log, and the value the bus returns for each write
// is an input too.
module Ov7740 {
  import opened Common

  /** One register/value pair of a table (`struct regval_list`). */
  datatype RegVal = RegVal(reg: bv8, value: bv8)

  /** The end-of-table marker {0xff, 0xff}. */
  predicate IsEnd(rv: RegVal)
  {
    rv.reg == 0xff && rv.value == 0xff
  }

  /** A table the driver may walk: it contains an end marker. */
  predicate Terminated(vals: seq<RegVal>)
  {
    exists k :: 0 <= k < |vals| && IsEnd(vals[k])
  }

  /** The entries of a table that precede its first end marker. */
  function Entries(vals: seq<RegVal>): (e: seq<RegVal>)
    ensures |e| <= |vals| && e == vals[..|e|]
    ensures forall k :: 0 <= k < |e| ==> !IsEnd(e[k])
    ensures |e| < |vals| ==> IsEnd(vals[|e|])
  {
    if vals == [] then []
    else if IsEnd(vals[0]) then []
    else [vals[0]] + Entries(vals[1..])
  }

  /** In a terminated table the end marker follows the entries. */
  lemma {:induction false} EntriesBeforeEnd(vals: seq<RegVal>)
    requires Terminated(vals)
    ensures |Entries(vals)| < |vals|
  {
    var k :| 0 <= k < |vals| && IsEnd(vals[k]);
    if !IsEnd(vals[0]) {
      assert IsEnd(vals[1..][k - 1]);
      EntriesBeforeEnd(vals[1..]);
    }
  }

  /** The reset table: SCCB reset via COM7 bit 7. */
  const RESET_SEQ: seq<RegVal> := [RegVal(0x12, 0x80), RegVal(0xff, 0xff)]

  /** Index of the first failing reply among the first n, or n when all succeed. */
  function FirstFailure(replies: seq<int>, n: nat): (k: nat)
    requires n <= |replies|
    ensures k <= n
    ensures forall j :: 0 <= j < k ==> replies[j] >= 0
    ensures k < n ==> replies[k] < 0
  {
    if n == 0 then 0
    else if FirstFailure(replies, n - 1) < n - 1 then FirstFailure(replies, n - 1)
    else if replies[n - 1] < 0 then n - 1
    else n
  }

  /** A failure at i after i successes is the first failure. */
  lemma {:induction false} FirstFailureAt(replies: seq<int>, n: nat, i: nat)
    requires i < n <= |replies| && replies[i] < 0
    requires forall j :: 0 <= j < i ==> replies[j] >= 0
    ensures FirstFailure(replies, n) == i
  {
    if n - 1 > i {
      FirstFailureAt(replies, n - 1, i);
    }
  }

  /** What ov7740_write_array returns when the bus answers `replies`: 0, or the first failing write's error. */
  function ArrayRet(vals: seq<RegVal>, replies: seq<int>): int
    requires |replies| >= |Entries(vals)|
  {
    var k := FirstFailure(replies, |Entries(vals)|);
    if k == |Entries(vals)| then 0 else replies[k]
  }

  /** The writes ov7740_write_array issues: every entry up to and including the first failing one. */
  function ArrayWrites(vals: seq<RegVal>, replies: seq<int>): seq<RegVal>
    requires |replies| >= |Entries(vals)|
  {
    var n := |Entries(vals)|;
    var k := FirstFailure(replies, n);
    Entries(vals)[..if k == n then n else k + 1]
  }

  /**
   * write_array writes the entries in table order and stops at the first
   * failure: it returns 0 exactly when every entry was written and
   * accepted, and otherwise returns a negative error after writing the
   * failing entry and nothing after it.
   */
  lemma ArrayOutcomeMeaning(vals: seq<RegVal>, replies: seq<int>)
    requires |replies| >= |Entries(vals)|
    ensures var e := Entries(vals); var w := ArrayWrites(vals, replies); var ret := ArrayRet(vals, replies);
      (ret == 0 <==> forall j :: 0 <= j < |e| ==> replies[j] >= 0) &&
      (ret == 0 ==> w == e) &&
      (ret != 0 ==>
        ret < 0 && 1 <= |w| <= |e| && ret == replies[|w| - 1] && forall j :: 0 <= j < |w| - 1 ==> replies[j] >= 0) &&
      w == vals[..|w|] && forall j :: 0 <= j < |w| ==> !IsEnd(w[j])
  {
    var e := Entries(vals);
    var k := FirstFailure(replies, |e|);
    if k < |e| {
      assert replies[k] < 0;
    }
  }

  /** Read-modify-write: the bits under `mask` come from `bits`, the others from the old value. */
  function Masked(prev: bv8, mask: bv8, bits: bv8): (v: bv8)
    ensures v & mask == bits & mask
    ensures v & !mask == prev & !mask
  {
    (prev & !mask) | (bits & mask)
  }

  /** The two properties of Masked determine its value. */
  lemma MaskedUnique(prev: bv8, mask: bv8, bits: bv8, v: bv8)
    requires v & mask == bits & mask && v & !mask == prev & !mask
    ensures v == Masked(prev, mask, bits)
  {
    assert v == (v & mask) | (v & !mask);
  }

  /** REG0C and its mirror bits. */
  const REG0C: bv8 := 0x0C
  const REG0C_HFLIP_IMG: bv8 := 0x40
  const REG0C_VFLIP_IMG: bv8 := 0x80

  /** The controls the sensor registers, and any other control id. */
  datatype CtrlId = VFlip | HFlip | OtherCtrl(id: int)

  /** The REG0C bit a flip control drives. */
  function FlipBit(id: CtrlId): (b: bv8)
    requires !id.OtherCtrl?
    ensures b == REG0C_VFLIP_IMG || b == REG0C_HFLIP_IMG
    ensures (b == REG0C_VFLIP_IMG) <==> id == VFlip
  {
    if id == VFlip then REG0C_VFLIP_IMG else REG0C_HFLIP_IMG
  }

  /** A supported window size (`struct ov7740_win_size`); the register table of the only size is empty. */
  datatype WinSize = WinSize(width: nat, height: nat)

  /** The supported sizes: VGA only. */
  const WIN_SIZES: seq<WinSize> := [WinSize(640, 480)]

  predicate Fits(s: WinSize, width: int, height: int)
  {
    s.width >= width && s.height >= height
  }

  /** The size select_win settles on, searching from index i: the first that fits, else the last. */
  function FirstFit(sizes: seq<WinSize>, width: int, height: int, i: nat): (r: nat)
    requires |sizes| > 0 && i <= |sizes|
    ensures r < |sizes| && (i < |sizes| ==> i <= r)
    ensures forall j :: i <= j < r ==> !Fits(sizes[j], width, height)
    ensures Fits(sizes[r], width, height) ||
      (r == |sizes| - 1 && forall j :: i <= j < |sizes| ==> !Fits(sizes[j], width, height))
    decreases |sizes| - i
  {
    if i == |sizes| then |sizes| - 1
    else if Fits(sizes[i], width, height) then i
    else FirstFit(sizes, width, height, i + 1)
  }

  /** ov7740_select_win: the nearest size at least as large as asked for, else the last; the caller's size is overwritten with it. */
  method SelectWin(sizes: seq<WinSize>, width: int, height: int) returns (idx: nat, newWidth: nat, newHeight: nat)
    requires |sizes| > 0
    ensures idx == FirstFit(sizes, width, height, 0)
    ensures newWidth == sizes[idx].width && newHeight == sizes[idx].height
  {
    var defaultSize := |sizes| - 1;
    var i := 0;
    while i < |sizes|
      invariant 0 <= i <= |sizes|
      invariant FirstFit(sizes, width, height, i) == FirstFit(sizes, width, height, 0)
    {
      if sizes[i].width >= width && sizes[i].height >= height {
        return i, sizes[i].width, sizes[i].height;
      }
      i := i + 1;
    }
    return defaultSize, sizes[defaultSize].width, sizes[defaultSize].height;
  }

  /** With VGA the only size, every request gets 640x480. */
  lemma {:induction false} AlwaysVga(width: int, height: int)
    ensures FirstFit(WIN_SIZES, width, height, 0) == 0
    ensures WIN_SIZES[FirstFit(WIN_SIZES, width, height, 0)] == WinSize(640, 480)
  {
    var r := FirstFit(WIN_SIZES, width, height, 0);
    assert r < |WIN_SIZES| == 1;
  }

  /** Media-bus pixel codes the driver distinguishes. */
  datatype MbusCode = Yuyv8_2x8 | Uyvy8_2x8 | Rgb565_2x8Be | Rgb565_2x8Le | OtherCode(code: int)

  datatype Colorspace = Srgb | Jpeg | OtherColorspace(cs: int)

  datatype Field = FieldNone | OtherField(f: int)

  /** The parts of `struct v4l2_mbus_framefmt` the driver reads or writes. */
  datatype MbusFmt = MbusFmt(width: int, height: int, code: MbusCode, colorspace: Colorspace, field: Field)

  predicate IsRgb565(c: MbusCode)
  {
    c == Rgb565_2x8Be || c == Rgb565_2x8Le
  }

  /** The codes the format callbacks accept unchanged. */
  predicate Known(c: MbusCode)
  {
    !c.OtherCode?
  }

  /** The colour space g_fmt reports: sRGB for RGB565, JPEG for anything else. */
  function ColorspaceOf(c: MbusCode): (cs: Colorspace)
    ensures cs == Srgb <==> IsRgb565(c)
    ensures cs != Srgb ==> cs == Jpeg
  {
    if IsRgb565(c) then Srgb else Jpeg
  }

  /**
   * The code switch of try_fmt and s_fmt: RGB565 keeps its code with sRGB,
   * the two YUV codes keep theirs with JPEG, and any other code is replaced
   * by `fallback` (UYVY in try_fmt, YUYV in s_fmt) with JPEG.
   */
  function Normalize(c: MbusCode, fallback: MbusCode): (r: (MbusCode, Colorspace))
    requires fallback == Yuyv8_2x8 || fallback == Uyvy8_2x8
    ensures Known(r.0)
    ensures r.0 == c <==> Known(c)
    ensures !Known(c) ==> r.0 == fallback
    ensures r.1 == ColorspaceOf(r.0)
  {
    match c
    case Rgb565_2x8Be => (c, Srgb)
    case Rgb565_2x8Le => (c, Srgb)
    case Yuyv8_2x8 => (c, Jpeg)
    case Uyvy8_2x8 => (c, Jpeg)
    case OtherCode(_) => (fallback, Jpeg)
  }

  /** Normalising twice changes nothing, and try_fmt and s_fmt disagree only on codes neither knows. */
  lemma NormalizeStable(c: MbusCode)
    ensures Normalize(Normalize(c, Uyvy8_2x8).0, Uyvy8_2x8) == Normalize(c, Uyvy8_2x8)
    ensures Normalize(Normalize(c, Yuyv8_2x8).0, Yuyv8_2x8) == Normalize(c, Yuyv8_2x8)
    ensures Normalize(c, Uyvy8_2x8) == Normalize(c, Yuyv8_2x8) <==> Known(c)
  {
  }

  /** ov7740_try_fmt: select a window without storing it, force progressive fields, normalise the code. */
  method TryFmt(mf: MbusFmt) returns (r: MbusFmt)
    ensures var idx := FirstFit(WIN_SIZES, mf.width, mf.height, 0);
      r.width == WIN_SIZES[idx].width && r.height == WIN_SIZES[idx].height
    ensures r.field == FieldNone
    ensures (r.code, r.colorspace) == Normalize(mf.code, Uyvy8_2x8)
  {
    var idx, width, height := SelectWin(WIN_SIZES, mf.width, mf.height);
    var n := Normalize(mf.code, Uyvy8_2x8);
    r := mf.(width := width, height := height, field := FieldNone, code := n.0, colorspace := n.1);
  }

  /** ov7740_enum_fmt: the sensor offers one code, YUYV. */
  function EnumFmt(index: nat): (r: Result<MbusCode>)
    ensures r.Ok? <==> index == 0
    ensures r.Ok? ==> r.value == Yuyv8_2x8
    ensures r.Err? ==> r.error == EINVAL
  {
    if index >= 1 then Err(EINVAL) else Ok(Yuyv8_2x8)
  }

  /** ov7740_g_register: the register number must fit a byte; the value is a byte read or the read's error. */
  function GRegister(reg: nat, readRet: int): (r: (int, Option<int>))
    ensures reg > 0xff ==> r == (-Code(EINVAL), None)
    ensures reg <= 0xff && readRet < 0 ==> r == (readRet, None)
    ensures r.0 == 0 <==> reg <= 0xff && readRet >= 0
    ensures r.0 == 0 ==> r.1 == Some(readRet)
  {
    if reg > 0xff then (-Code(EINVAL), None)
    else if readRet < 0 then (readRet, None)
    else (0, Some(readRet))
  }

  /** The chip identity: the product id in the high byte, the version in the low byte. */
  function Version(pid: bv8, ver: bv8): (v: int)
    ensures 0 <= v < 0x10000
  {
    pid as int * 256 + ver as int
  }

  const PID_OV7740: int := 0x7742

  /** The probe accepts exactly PID 0x77 with VER 0x42. */
  lemma VersionAccepts(pid: bv8, ver: bv8)
    ensures Version(pid, ver) == PID_OV7740 <==> pid == 0x77 && ver == 0x42
  {
    if Version(pid, ver) == PID_OV7740 {
      assert pid as int == Version(pid, ver) / 256;
      assert ver as int == Version(pid, ver) % 256;
    }
  }

  /** The identity the probe records in priv->model. */
  datatype ChipIdent = NoIdent | IdentOv7740

  /**
   * The driver state (`struct ov7740_priv`): the chosen media-bus code and
   * window (NULL until chosen, and again after a failed set_params), the
   * identity found by the probe, the register writes issued and the power
   * requests made. The initialisation table is a constructor argument: its
   * register values are not reproduced.
   */
  class Sensor {
    const initRegs: seq<RegVal>
    var cfmtCode: MbusCode
    var win: Option<WinSize>
    var model: ChipIdent
    var writes: seq<RegVal>
    var power: seq<bool>

    /** A window is only ever stored with a code the format callbacks accept. */
    predicate Consistent()
      reads this
    {
      win.Some? ==> Known(cfmtCode)
    }

    /** devm_kzalloc: everything zero. */
    constructor(initRegs: seq<RegVal>)
      requires Terminated(initRegs)
      ensures this.initRegs == initRegs && cfmtCode == OtherCode(0) && win == None && model == NoIdent
      ensures writes == [] && power == [] && Consistent()
    {
      this.initRegs := initRegs;
      cfmtCode := OtherCode(0);
      win := None;
      model := NoIdent;
      writes := [];
      power := [];
    }

    /** ov7740_write_array: write entries until the end marker, stopping at the first failure. */
    method WriteArray(vals: seq<RegVal>, replies: seq<int>) returns (ret: int)
      requires Terminated(vals) && |replies| >= |Entries(vals)|
      modifies this`writes
      ensures ret == ArrayRet(vals, replies)
      ensures writes == old(writes) + ArrayWrites(vals, replies)
    {
      EntriesBeforeEnd(vals);
      var e := Entries(vals);
      var i := 0;
      while !IsEnd(vals[i])
        invariant 0 <= i <= |e| && writes == old(writes) + e[..i]
        invariant forall j :: 0 <= j < i ==> replies[j] >= 0
        decreases |e| - i
      {
        writes := writes + [vals[i]];
        if replies[i] < 0 {
          FirstFailureAt(replies, |e|, i);
          assert e[..i] + [vals[i]] == e[..i + 1];
          return replies[i];
        }
        i := i + 1;
      }
      FirstFailureNone(replies, |e|);
      assert e[..i] == e;
      ret := 0;
    }

    /** ov7740_reset: the reset table; its result is not looked at by set_params. */
    method Reset(replies: seq<int>) returns (ret: int)
      requires |replies| >= 1
      modifies this`writes
      ensures ret == ArrayRet(RESET_SEQ, replies)
      ensures writes == old(writes) + ArrayWrites(RESET_SEQ, replies)
    {
      assert IsEnd(RESET_SEQ[1]);
      assert Entries(RESET_SEQ) == [RESET_SEQ[0]];
      ret := WriteArray(RESET_SEQ, replies);
    }

    /** ov7740_mask_set: read a register and write it back with the bits under `mask` taken from `bits`. */
    method MaskSet(reg: bv8, mask: bv8, bits: bv8, readVal: int, writeReply: int) returns (ret: int)
      requires readVal < 256
      modifies this`writes
      ensures readVal < 0 ==> ret == readVal && writes == old(writes)
      ensures readVal >= 0 ==> ret == writeReply && writes == old(writes) + [RegVal(reg, Masked(readVal as bv8, mask, bits))]
    {
      if readVal < 0 {
        return readVal;
      }
      var v := (readVal as bv8 & !mask) | (bits & mask);
      writes := writes + [RegVal(reg, v)];
      ret := writeReply;
    }

    /**
     * ov7740_s_ctrl: the flip controls set or clear their own REG0C bit and
     * keep the other seven; any other control is refused.
     */
    method SetCtrl(id: CtrlId, val: int, readVal: int, writeReply: int) returns (ret: int)
      requires readVal < 256
      modifies this`writes
      ensures id.OtherCtrl? ==> ret == -Code(EINVAL) && writes == old(writes)
      ensures !id.OtherCtrl? && readVal < 0 ==> ret == readVal && writes == old(writes)
      ensures !id.OtherCtrl? && readVal >= 0 ==>
        ret == writeReply && |writes| == |old(writes)| + 1 &&
        writes[..|old(writes)|] == old(writes) && writes[|old(writes)|].reg == REG0C &&
        writes[|old(writes)|].value & FlipBit(id) == (if val != 0 then FlipBit(id) else 0) &&
        writes[|old(writes)|].value & !FlipBit(id) == readVal as bv8 & !FlipBit(id)
    {
      match id
      case VFlip =>
        var v: bv8 := if val != 0 then REG0C_VFLIP_IMG else 0x00;
        ret := MaskSet(REG0C, REG0C_VFLIP_IMG, v, readVal, writeReply);
      case HFlip =>
        var v: bv8 := if val != 0 then REG0C_HFLIP_IMG else 0x00;
        ret := MaskSet(REG0C, REG0C_HFLIP_IMG, v, readVal, writeReply);
      case OtherCtrl(_) =>
        ret := -Code(EINVAL);
    }

    /**
     * ov7740_set_params: choose the window, reset the sensor, write the
     * initialisation table; on success record the code, on failure reset
     * again and forget the window. The caller's size is overwritten with
     * the chosen window either way.
     */
    method SetParams(width: int, height: int, code: MbusCode, reset1: seq<int>, initReplies: seq<int>, reset2: seq<int>)
      returns (ret: int, newWidth: nat, newHeight: nat)
      requires Terminated(initRegs) && |reset1| >= 1 && |reset2| >= 1 && |initReplies| >= |Entries(initRegs)|
      modifies this`win, this`cfmtCode, this`writes
      ensures var idx := FirstFit(WIN_SIZES, width, height, 0);
        newWidth == WIN_SIZES[idx].width && newHeight == WIN_SIZES[idx].height &&
        (ret == 0 ==> win == Some(WIN_SIZES[idx]))
      ensures ret == ArrayRet(initRegs, initReplies)
      ensures ret == 0 ==> cfmtCode == code
      ensures ret != 0 ==> win == None && cfmtCode == OtherCode(0)
      ensures writes == old(writes) + ArrayWrites(RESET_SEQ, reset1) + ArrayWrites(initRegs, initReplies) +
        (if ret != 0 then ArrayWrites(RESET_SEQ, reset2) else [])
    {
      var idx;
      idx, newWidth, newHeight := SelectWin(WIN_SIZES, width, height);
      win := Some(WIN_SIZES[idx]);
      cfmtCode := OtherCode(0);
      var ignored := Reset(reset1);
      ret := WriteArray(initRegs, initReplies);
      if ret < 0 {
        ignored := Reset(reset2);
        win := None;
        return;
      }
      ArrayOutcomeMeaning(initRegs, initReplies);
      cfmtCode := code;
      newWidth, newHeight := win.value.width, win.value.height;
    }

    /** ov7740_s_fmt: normalise the code (unknown codes become YUYV), then set_params with it. */
    method SetFmt(mf: MbusFmt, reset1: seq<int>, initReplies: seq<int>, reset2: seq<int>) returns (ret: int, r: MbusFmt)
      requires Terminated(initRegs) && |reset1| >= 1 && |reset2| >= 1 && |initReplies| >= |Entries(initRegs)|
      requires Consistent()
      modifies this`win, this`cfmtCode, this`writes
      ensures Consistent()
      ensures ret == ArrayRet(initRegs, initReplies)
      ensures (r.code, r.colorspace) == Normalize(mf.code, Yuyv8_2x8) && r.field == mf.field
      ensures var idx := FirstFit(WIN_SIZES, mf.width, mf.height, 0);
        r.width == WIN_SIZES[idx].width && r.height == WIN_SIZES[idx].height &&
        (ret == 0 ==> win == Some(WIN_SIZES[idx]) && cfmtCode == r.code)
      ensures ret != 0 ==> win == None
    {
      var n := Normalize(mf.code, Yuyv8_2x8);
      var width, height;
      ret, width, height := SetParams(mf.width, mf.height, n.0, reset1, initReplies, reset2);
      r := mf.(code := n.0, colorspace := n.1, width := width, height := height);
    }

    /** ov7740_g_fmt: report the current format, choosing VGA/YUYV first if no window is set. */
    method GetFmt() returns (mf: MbusFmt)
      requires Consistent()
      modifies this`win, this`cfmtCode
      ensures old(win) == None ==> win == Some(WinSize(640, 480)) && cfmtCode == Yuyv8_2x8
      ensures old(win) != None ==> win == old(win) && cfmtCode == old(cfmtCode)
      ensures Consistent() && win.Some?
      ensures mf == MbusFmt(win.value.width, win.value.height, cfmtCode, ColorspaceOf(cfmtCode), FieldNone)
      ensures Known(mf.code)
    {
      if win == None {
        var idx, width, height := SelectWin(WIN_SIZES, 640, 480);
        AlwaysVga(640, 480);
        win := Some(WIN_SIZES[idx]);
        cfmtCode := Yuyv8_2x8;
      }
      mf := MbusFmt(win.value.width, win.value.height, cfmtCode, ColorspaceOf(cfmtCode), FieldNone);
    }

    /** ov7740_s_register: register number and value must each fit a byte. */
    method SetRegister(reg: nat, val: nat, writeReply: int) returns (ret: int)
      modifies this`writes
      ensures reg > 0xff || val > 0xff ==> ret == -Code(EINVAL) && writes == old(writes)
      ensures reg <= 0xff && val <= 0xff ==> ret == writeReply && writes == old(writes) + [RegVal(reg as bv8, val as bv8)]
    {
      if reg > 0xff || val > 0xff {
        return -Code(EINVAL);
      }
      writes := writes + [RegVal(reg as bv8, val as bv8)];
      ret := writeReply;
    }

    /**
     * ov7740_video_probe: power on, read the product id and version, accept
     * only the OV7740, set the controls up, power off. A failed power-on
     * returns at once; the id bytes are the low bytes of what the reads
     * returned, as the driver stores them in `u8`.
     */
    method VideoProbe(powerRet: int, pid: bv8, ver: bv8, setupRet: int) returns (ret: int)
      modifies this`model, this`power
      ensures powerRet < 0 ==> ret == powerRet && power == old(power) + [true] && model == old(model)
      ensures powerRet >= 0 ==> power == old(power) + [true, false]
      ensures powerRet >= 0 && Version(pid, ver) == PID_OV7740 ==> ret == setupRet && model == IdentOv7740
      ensures powerRet >= 0 && Version(pid, ver) != PID_OV7740 ==> ret == -Code(ENODEV) && model == old(model)
    {
      power := power + [true];
      if powerRet < 0 {
        return powerRet;
      }
      if Version(pid, ver) == PID_OV7740 {
        model := IdentOv7740;
        ret := setupRet;
      } else {
        ret := -Code(ENODEV);
      }
      power := power + [false];
    }
  }

  /** No failure among the first n replies. */
  lemma {:induction false} FirstFailureNone(replies: seq<int>, n: nat)
    requires n <= |replies| && forall j :: 0 <= j < n ==> replies[j] >= 0
    ensures FirstFailure(replies, n) == n
  {
    if n > 0 {
      FirstFailureNone(replies, n - 1);
    }
  }
}
