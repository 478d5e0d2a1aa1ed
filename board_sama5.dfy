// The logic of the SAMA5 device-tree board file (board-dt-sama5.c): the
// fix-up of the camera sensors' I2C bus, and the choice of the LCD mode and
// framebuffer size for the PDA display modules and the SiI9022 HDMI
// encoder. Device-tree lookups are inputs.
module BoardSama5 {
  import opened Common

  // ---------------------------------------------------------------------
  // at91_fixup_isi_sensor_bus

  /** The soc_camera_desc a sensor device carries as platform data. */
  class CameraDesc {
    /** host_desc.i2c_adapter_id */
    var i2cAdapterId: int

    constructor(id: int)
      ensures i2cAdapterId == id
    {
      i2cAdapterId := id;
    }
  }

  /** An entry of the sensor table: a NULL pointer, or a device with or without platform data. */
  datatype SensorEntry = NullEntry | Device(platformData: Option<CameraDesc>)

  /** Where the walk over the first n entries, from entry i on, stops: the first NULL entry, or n. */
  function WalkEnd(s: seq<SensorEntry>, n: nat, i: nat): (k: nat)
    requires i <= n <= |s|
    ensures i <= k <= n && (forall j :: i <= j < k ==> s[j].Device?) && (k < n ==> s[k].NullEntry?)
    decreases n - i
  {
    if i == n then n else if s[i].NullEntry? then i else WalkEnd(s, n, i + 1)
  }

  /** The platform data of the devices among the first k entries. */
  ghost function Descs(s: seq<SensorEntry>, k: nat): set<CameraDesc>
    requires k <= |s|
  {
    set j | 0 <= j < k && s[j].Device? && s[j].platformData.Some? :: s[j].platformData.value
  }

  /**
   * at91_fixup_isi_sensor_bus: every device before the first NULL entry
   * (among the first n) that has platform data is put on bus fixedId; a
   * device without platform data is passed over; platform data reached only
   * from the NULL entry on keeps its bus.
   */
  method FixupIsiSensorBus(sensors: array<SensorEntry>, n: nat, fixedId: int)
    requires n <= sensors.Length
    modifies Descs(sensors[..], n)
    ensures var stop := WalkEnd(sensors[..], n, 0);
      forall d :: d in Descs(sensors[..], stop) ==> d.i2cAdapterId == fixedId
    ensures var stop := WalkEnd(sensors[..], n, 0);
      forall d :: d in Descs(sensors[..], n) && d !in Descs(sensors[..], stop) ==> d.i2cAdapterId == old(d.i2cAdapterId)
  {
    var i := 0;
    while i < n
      invariant 0 <= i <= n && WalkEnd(sensors[..], n, i) == WalkEnd(sensors[..], n, 0)
      invariant forall d :: d in Descs(sensors[..], i) ==> d.i2cAdapterId == fixedId
      invariant forall d :: d in Descs(sensors[..], n) && d !in Descs(sensors[..], i) ==> d.i2cAdapterId == old(d.i2cAdapterId)
    {
      if sensors[i].NullEntry? {
        break;
      }
      var scd := sensors[i].platformData;
      if scd.Some? {
        scd.value.i2cAdapterId := fixedId;
      }
      assert Descs(sensors[..], i + 1) == Descs(sensors[..], i) + (if scd.Some? then {scd.value} else {});
      i := i + 1;
    }
  }

  // ---------------------------------------------------------------------
  // The LCD mode of sama5_dt_device_init

  /** The sync bits of fb_videomode.sync the board uses: FB_SYNC_* and LCDC_LCDCFG5_* delays. */
  datatype SyncFlag = HorHighAct | VertHighAct | VspDlyS | VspDlyE | DispDly

  /** fb_videomode, without the vmode field (always non-interlaced here). */
  datatype VideoMode = VideoMode(
    name: string, refresh: nat, xres: nat, yres: nat, pixclock: nat,
    leftMargin: nat, rightMargin: nat, upperMargin: nat, lowerMargin: nat,
    hsyncLen: nat, vsyncLen: nat, sync: set<SyncFlag>)

  /** The output modes of LCDC_LCDCFG5 the board names. */
  datatype OutputMode = Output12Bpp | Output16Bpp | Output18Bpp | Output24Bpp

  /** The machine compatibles and the encoder node the display set-up looks at. */
  datatype Board = Board(pdaTm70xx: bool, pdaTm43xx: bool, encoderSii9022: bool)

  /** The PDA7 module: new margins and sync lengths on the default 800x480 timing. */
  function Tm70Mode(m: VideoMode): VideoMode
  {
    m.(name := "PALM", leftMargin := 128, rightMargin := 0, upperMargin := 23, lowerMargin := 22,
       hsyncLen := 5, vsyncLen := 5)
  }

  /** The PDA4 module: 480x272 at 9 MHz. */
  function Tm43Mode(m: VideoMode): VideoMode
  {
    m.(name := "Inlx", xres := 480, yres := 272, pixclock := KHz2Picos(9000),
       leftMargin := 2, rightMargin := 2, upperMargin := 2, lowerMargin := 2, hsyncLen := 41, vsyncLen := 11)
  }

  /** The HDMI timing for the resolution property: 1080p30, 1440x900, or 720p60 for any other value. */
  function HdmiMode(resolution: int, m: VideoMode): VideoMode
  {
    var sync := {HorHighAct, VertHighAct, VspDlyS, VspDlyE};
    if resolution == 1080 then
      m.(xres := 1920, yres := 1080, pixclock := KHz2Picos(74250), leftMargin := 148, rightMargin := 88,
         upperMargin := 36, lowerMargin := 4, hsyncLen := 44, vsyncLen := 5, sync := sync)
    else if resolution == 900 then
      m.(xres := 1440, yres := 900, pixclock := KHz2Picos(88750), leftMargin := 48, rightMargin := 80,
         upperMargin := 3, lowerMargin := 17, hsyncLen := 32, vsyncLen := 6, sync := sync)
    else
      m.(xres := 1280, yres := 720, pixclock := KHz2Picos(74250), leftMargin := 220, rightMargin := 110,
         upperMargin := 20, lowerMargin := 5, hsyncLen := 40, vsyncLen := 5, sync := sync)
  }

  /** The mode after the three blocks of sama5_dt_device_init, in their order. */
  function BoardMode(b: Board, resolution: Option<int>, m: VideoMode): VideoMode
    requires b.encoderSii9022 ==> resolution.Some?
  {
    var m1 := if b.pdaTm70xx then Tm70Mode(m) else m;
    var m2 := if b.pdaTm43xx then Tm43Mode(m1) else m1;
    if b.encoderSii9022 then HdmiMode(resolution.value, m2) else m2
  }

  /** The framebuffer size after the same blocks: 32 bits a pixel for the PDA4 module, 16 for HDMI. */
  function BoardSmemLen(b: Board, resolution: Option<int>, smemLen: nat): nat
    requires b.encoderSii9022 ==> resolution.Some?
  {
    if b.encoderSii9022 then
      var m := HdmiMode(resolution.value, VideoMode("", 0, 0, 0, 0, 0, 0, 0, 0, 0, 0, {}));
      m.xres * m.yres * 2
    else if b.pdaTm43xx then 480 * 272 * 4
    else smemLen
  }

  /**
   * The HDMI encoder selects the timing by the resolution property, with
   * 720p60 for any value but 1080 and 900, and then reserves exactly two
   * bytes a pixel; the PDA4 module alone gets 480x272 at 9 MHz with four
   * bytes a pixel.
   */
  lemma BoardModeMeaning(b: Board, resolution: Option<int>, m: VideoMode, smemLen: nat)
    requires b.encoderSii9022 ==> resolution.Some?
    ensures var t := BoardMode(b, resolution, m); b.encoderSii9022 ==>
      (t.xres, t.yres, t.pixclock) ==
        (if resolution.value == 1080 then (1920, 1080, KHz2Picos(74250))
         else if resolution.value == 900 then (1440, 900, KHz2Picos(88750))
         else (1280, 720, KHz2Picos(74250))) &&
      t.sync == {HorHighAct, VertHighAct, VspDlyS, VspDlyE} &&
      BoardSmemLen(b, resolution, smemLen) == t.xres * t.yres * 2
    ensures var t := BoardMode(b, resolution, m); b.pdaTm43xx && !b.encoderSii9022 ==>
      (t.xres, t.yres, t.pixclock) == (480, 272, KHz2Picos(9000)) && BoardSmemLen(b, resolution, smemLen) == t.xres * t.yres * 4
    ensures var t := BoardMode(b, resolution, m); !b.pdaTm43xx && !b.encoderSii9022 ==>
      (t.xres, t.yres, t.pixclock) == (m.xres, m.yres, m.pixclock) && BoardSmemLen(b, resolution, smemLen) == smemLen
  {
  }

  /** The board's LCD data: at91_tft_vga_modes[0], ek_lcdc_data and at91fb_default_monspecs. */
  class BoardDisplay {
    var mode: VideoMode
    /** ek_lcdc_data.smem_len */
    var smemLen: nat
    /** ek_lcdc_data.default_lcdcon2 */
    var output: OutputMode
    var manufacturer: string
    var monitor: string
    /** ek_lcdc_data.default_bpp */
    const defaultBpp: nat

    /** The framebuffer holds a screen at the default depth. */
    ghost predicate Valid()
      reads this
    {
      smemLen >= mode.xres * mode.yres * (defaultBpp / 8)
    }

    /** The static initialisers: the LG 800x480 panel at 33.26 MHz, memory for 32 bits a pixel. */
    constructor()
      ensures Valid()
      ensures mode.xres == 800 && mode.yres == 480 && mode.pixclock == KHz2Picos(33260) && smemLen == 800 * 480 * 4
    {
      mode := VideoMode("LG", 60, 800, 480, KHz2Picos(33260), 88, 168, 8, 37, 128, 2, {VspDlyS, DispDly});
      smemLen := 800 * 480 * 4;
      output := Output24Bpp;
      manufacturer, monitor := "LG", "LB043WQ1";
      defaultBpp := 16;
    }

    /**
     * The display part of sama5_dt_device_init. The resolution property is
     * read only when the sii902x node exists and is available; the source
     * then switches on an uninitialised variable, so the model requires the
     * property when the encoder is present.
     */
    method InitDisplay(b: Board, resolution: Option<int>)
      requires b.encoderSii9022 ==> resolution.Some?
      modifies this
      ensures mode == BoardMode(b, resolution, old(mode)) && smemLen == BoardSmemLen(b, resolution, old(smemLen))
      ensures output == (if b.pdaTm70xx then Output24Bpp else old(output))
      ensures manufacturer == (if b.pdaTm43xx then "Inlx" else if b.pdaTm70xx then "PALM" else old(manufacturer))
      ensures monitor == (if b.pdaTm43xx then "AT043TN24" else if b.pdaTm70xx then "AT07" else old(monitor))
      ensures old(Valid()) && defaultBpp == 16 ==> Valid()
    {
      if b.pdaTm70xx {
        mode := mode.(name := "PALM", leftMargin := 128, rightMargin := 0, upperMargin := 23, lowerMargin := 22);
        mode := mode.(hsyncLen := 5, vsyncLen := 5);
        manufacturer, monitor := "PALM", "AT07";
        output := Output24Bpp;
      }
      if b.pdaTm43xx {
        mode := mode.(name := "Inlx", xres := 480, yres := 272, pixclock := KHz2Picos(9000));
        mode := mode.(leftMargin := 2, rightMargin := 2, upperMargin := 2, lowerMargin := 2, hsyncLen := 41, vsyncLen := 11);
        manufacturer, monitor := "Inlx", "AT043TN24";
        smemLen := 480 * 272 * 4;
      }
      if b.encoderSii9022 {
        mode := HdmiMode(resolution.value, mode);
        smemLen := mode.xres * mode.yres * 2;
      }
      if old(Valid()) && defaultBpp == 16 {
        BoardKeepsFit(b, resolution, old(mode), old(smemLen));
      }
    }
  }

  /** Whatever the board, the framebuffer it reserves holds a 16-bit screen of the mode it selects, if the initial one did. */
  lemma BoardKeepsFit(b: Board, resolution: Option<int>, m: VideoMode, smemLen: nat)
    requires b.encoderSii9022 ==> resolution.Some?
    requires smemLen >= m.xres * m.yres * 2
    ensures BoardSmemLen(b, resolution, smemLen) >= BoardMode(b, resolution, m).xres * BoardMode(b, resolution, m).yres * 2
  {
    BoardModeMeaning(b, resolution, m, smemLen);
  }
}
