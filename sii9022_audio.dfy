// The audio half of the SiI9022 HDMI transmitter driver: the ASoC codec
// DAI that turns a DAI format and PCM hardware parameters into the
// transmitter's I2S input configuration, IEC 60958 channel-status header and
// audio InfoFrame, mutes and unmutes the stream, and sizes the playback
// channel count from the I2S FIFO routing words
// (drivers/hdmi/encoder-sii9022-audio.c).
//
// The register header encoder-sii9022.h is not part of this model: register
// fields are named flags rather than numbers, and the FIFO routing defaults
// and the FIFO-enable bit are parameters of the registration step.
module Sii9022Audio {
  import opened Common

  /** SND_SOC_DAIFMT_MASTER_MASK field: who provides the bit clock and the frame clock. */
  datatype MasterMode = CbmCfm | CbsCfm | CbmCfs | CbsCfs | OtherMaster(code: int)

  /** SND_SOC_DAIFMT_FORMAT_MASK field. */
  datatype DaiFormat = I2S | RightJ | LeftJ | OtherFormat(code: int)

  /** SND_SOC_DAIFMT_INV_MASK field: normal or inverted bit clock (NB/IB) and frame clock (NF/IF). */
  datatype Inversion = NbNf | NbIf | IbNf | IbIf | OtherInversion(code: int)

  /** The DAI format word stored by set_fmt, by field. */
  datatype DaiFmt = DaiFmt(master: MasterMode, format: DaiFormat, inv: Inversion)

  /** The PCM sample formats the codec names, and every other one. */
  datatype PcmFormat = S16Le | S20_3Le | S24_3Le | S24Le | S32Le | OtherPcm(code: int)

  /** Bits of the TPI I2S input configuration register. */
  datatype I2sFlag =
    | SdDirectionMsbFirst | FirstBitShiftYes | SdJustifyLeft | SdJustifyRight
    | WsPolarityHigh | WsPolarityLow | SckEdgeRising | SckEdgeFalling

  /** Bits of the TPI audio configuration byte 2 (interface, layout, mute, coding). */
  datatype Byte2Flag = InterfaceI2s | InterfaceDisable | Layout2Channels | Layout8Channels | MuteEnable | MuteDisable | CodingPcm

  /** The sample sizes of audio configuration byte 3 and of the audio InfoFrame. */
  datatype SampleSize = Size16 | Size20 | Size24

  /** The IEC 60958 word-length bits of channel-status byte 4. */
  datatype WordLenFlag = WordLen20_16 | WordLen24_20 | MaxWordLen24

  /** The sample frequencies the codec accepts. */
  datatype SampleFreq = F32000 | F44100 | F48000 | F88200 | F96000 | F176400 | F192000

  /**
   * The variable part of the five-byte IEC 60958 consumer channel-status
   * header: the sampling frequency of byte 3, and the original sampling
   * frequency and word-length bits of byte 4 (bytes 0 to 2 are fixed).
   */
  datatype ChannelStatus = ChannelStatus(fs: SampleFreq, origFs: SampleFreq, wordLen: set<WordLenFlag>)

  /** The audio InfoFrame fields the driver fills in; the coding type is always PCM. */
  datatype InfoFrame = InfoFrame(sampleSize: SampleSize, freq: SampleFreq, channels: int)

  /** Everything audio_start derives from the DAI format and the hardware parameters before it writes. */
  datatype AudioSettings = AudioSettings(i2s: set<I2sFlag>, size: SampleSize, status: ChannelStatus)

  /** The indirect-access registers used to switch on Level 0 packet decoding. */
  datatype IndReg = IndSetPage | IndOffset | IndValue

  /** One register write of the codec, in the order issued. */
  datatype AudioWrite =
    | ConfigByte2(flags: set<Byte2Flag>)
    | I2sInputConfig(i2s: set<I2sFlag>)
    | I2sEnableMapping(route: bv32)
    | ConfigByte3(size: SampleSize)
    | StreamHeader(status: ChannelStatus)
    | InfoFrameWrite(frame: InfoFrame, len: int)
    | IndirectWrite(reg: IndReg, value: bv8)

  const RATES: set<int> := {32000, 44100, 48000, 88200, 96000, 176400, 192000}

  function Hz(f: SampleFreq): int
  {
    match f
    case F32000 => 32000
    case F44100 => 44100
    case F48000 => 48000
    case F88200 => 88200
    case F96000 => 96000
    case F176400 => 176400
    case F192000 => 192000
  }

  /** The rate switch of audio_start: each accepted rate selects its own frequency code. */
  function RateFreq(rate: int): (r: Option<SampleFreq>)
    ensures r.Some? <==> rate in RATES
    ensures r.Some? ==> Hz(r.value) == rate
  {
    if rate == 32000 then Some(F32000)
    else if rate == 44100 then Some(F44100)
    else if rate == 48000 then Some(F48000)
    else if rate == 88200 then Some(F88200)
    else if rate == 96000 then Some(F96000)
    else if rate == 176400 then Some(F176400)
    else if rate == 192000 then Some(F192000)
    else None
  }

  /** Every frequency code is selected by its own rate, so no two accepted rates share a code. */
  lemma {:induction false} RateFreqRoundTrip(f: SampleFreq)
    ensures RateFreq(Hz(f)) == Some(f)
  {
    match f
    case F32000 =>
    case F44100 =>
    case F48000 =>
    case F88200 =>
    case F96000 =>
    case F176400 =>
    case F192000 =>
  }

  /** The I2S bits of the format switch; None for the formats it rejects. */
  function FormatFlags(f: DaiFormat): Option<set<I2sFlag>>
  {
    match f
    case I2S => Some({FirstBitShiftYes, SdJustifyLeft})
    case LeftJ => Some({SdJustifyLeft})
    case RightJ => Some({SdJustifyRight})
    case _ => None
  }

  /** The I2S bits of the inversion switch; an unknown inversion adds none. */
  function InversionFlags(i: Inversion): set<I2sFlag>
  {
    match i
    case NbNf => {WsPolarityHigh, SckEdgeRising}
    case IbNf => {WsPolarityHigh, SckEdgeFalling}
    case NbIf => {WsPolarityLow, SckEdgeRising}
    case IbIf => {WsPolarityLow, SckEdgeFalling}
    case OtherInversion(_) => {}
  }

  /** The sample-format switch; None for the formats it rejects. */
  function SampleSizeOf(p: PcmFormat): Option<SampleSize>
  {
    match p
    case S16Le => Some(Size16)
    case S20_3Le => Some(Size20)
    case OtherPcm(_) => None
    case _ => Some(Size24)
  }

  function SizeBits(s: SampleSize): int
  {
    match s
    case Size16 => 16
    case Size20 => 20
    case Size24 => 24
  }

  function WordLenFlags(s: SampleSize): set<WordLenFlag>
  {
    match s
    case Size16 => {WordLen20_16}
    case Size20 => {WordLen24_20}
    case Size24 => {MaxWordLen24, WordLen24_20}
  }

  /**
   * The checks and bit mapping of sii9022_audio_start, in the source's
   * order: master mode, DAI format, inversion (which never fails), sample
   * format, rate. Every rejection is -EINVAL; an accepted configuration
   * carries the I2S, sample-size and channel-status bits the switches
   * select.
   */
  function AudioStartPlan(fmt: DaiFmt, pcm: PcmFormat, rate: int): (r: Result<AudioSettings>)
    ensures r.Ok? <==> (fmt.master == CbsCfs && (fmt.format == I2S || fmt.format == LeftJ || fmt.format == RightJ) &&
      !pcm.OtherPcm? && rate in RATES)
    ensures r.Err? ==> r.error == EINVAL
    ensures r.Ok? ==> var s := r.value;
      SdDirectionMsbFirst in s.i2s &&
      (FirstBitShiftYes in s.i2s <==> fmt.format == I2S) &&
      (SdJustifyLeft in s.i2s <==> fmt.format != RightJ) &&
      (SdJustifyRight in s.i2s <==> fmt.format == RightJ) &&
      (WsPolarityHigh in s.i2s <==> fmt.inv == NbNf || fmt.inv == IbNf) &&
      (WsPolarityLow in s.i2s <==> fmt.inv == NbIf || fmt.inv == IbIf) &&
      (SckEdgeRising in s.i2s <==> fmt.inv == NbNf || fmt.inv == NbIf) &&
      (SckEdgeFalling in s.i2s <==> fmt.inv == IbNf || fmt.inv == IbIf)
    ensures r.Ok? ==> var s := r.value;
      SizeBits(s.size) == (if pcm == S16Le then 16 else if pcm == S20_3Le then 20 else 24) &&
      Hz(s.status.fs) == rate && s.status.origFs == s.status.fs &&
      (WordLen20_16 in s.status.wordLen <==> s.size == Size16) &&
      (MaxWordLen24 in s.status.wordLen <==> s.size == Size24)
  {
    if fmt.master != CbsCfs then Err(EINVAL)
    else
      match FormatFlags(fmt.format)
      case None => Err(EINVAL)
      case Some(formatBits) =>
        var i2s := {SdDirectionMsbFirst} + formatBits + InversionFlags(fmt.inv);
        match SampleSizeOf(pcm)
        case None => Err(EINVAL)
        case Some(size) =>
          match RateFreq(rate)
          case None => Err(EINVAL)
          case Some(f) => Ok(AudioSettings(i2s, size, ChannelStatus(f, f, WordLenFlags(size))))
  }

  /** Audio configuration byte 2 as digital_mute writes it. */
  function MuteByte(channels: int, mute: bool): set<Byte2Flag>
  {
    {InterfaceI2s, CodingPcm} +
    (if channels > 2 then {Layout8Channels} else {Layout2Channels}) +
    (if mute then {MuteEnable} else {MuteDisable})
  }

  /** digital_mute always selects the I2S interface and PCM coding, exactly one layout and exactly one mute state. */
  lemma MuteByteMeaning(channels: int, mute: bool)
    ensures var b := MuteByte(channels, mute);
      InterfaceI2s in b && CodingPcm in b && InterfaceDisable !in b &&
      (Layout8Channels in b <==> channels > 2) && (Layout2Channels in b <==> channels <= 2) &&
      (MuteEnable in b <==> mute) && (MuteDisable in b <==> !mute)
  {
  }

  /** The enable-mapping writes, one per routing word, in order. */
  function MappingWrites(routing: seq<bv32>): (r: seq<AudioWrite>)
    ensures |r| == |routing|
    ensures forall i :: 0 <= i < |routing| ==> r[i] == I2sEnableMapping(routing[i])
  {
    seq(|routing|, i requires 0 <= i < |routing| => I2sEnableMapping(routing[i]))
  }

  /** The three indirect writes that switch on decoding of Level 0 packets. */
  function Level0Writes(): seq<AudioWrite>
  {
    [IndirectWrite(IndSetPage, 0x02), IndirectWrite(IndOffset, 0x24), IndirectWrite(IndValue, 0x02)]
  }

  /**
   * The writes of an accepted audio_start: the mute; then, if the mute
   * succeeded, the I2S configuration, the routing words, byte 3 and the
   * channel-status header; then, if the InfoFrame packed, the InfoFrame
   * and the Level 0 writes.
   */
  function StartWrites(s: AudioSettings, channels: int, routing: seq<bv32>, muteReply: int, packReply: int): seq<AudioWrite>
  {
    var mute := [ConfigByte2(MuteByte(channels, true))];
    if muteReply < 0 then mute
    else if packReply < 0 then mute + ConfigWrites(s, routing)
    else mute + ConfigWrites(s, routing) + PacketWrites(s, channels, packReply)
  }

  /** The stream configuration: I2S input, FIFO routing, byte 3 and the channel-status header. */
  function ConfigWrites(s: AudioSettings, routing: seq<bv32>): seq<AudioWrite>
  {
    [I2sInputConfig(s.i2s)] + MappingWrites(routing) + [ConfigByte3(s.size), StreamHeader(s.status)]
  }

  /** The packed audio InfoFrame, then the switch to Level 0 packet decoding. */
  function PacketWrites(s: AudioSettings, channels: int, len: int): seq<AudioWrite>
  {
    [InfoFrameWrite(InfoFrame(s.size, s.status.fs, channels), len)] + Level0Writes()
  }

  /** The value audio_start returns after its checks have passed. */
  function StartResult(muteReply: int, packReply: int): int
  {
    if muteReply < 0 then muteReply else if packReply < 0 then packReply else 0
  }

  /**
   * An accepted start always writes the mute first, and it writes nothing
   * else when the mute fails; it reaches the Level 0 writes exactly when it
   * returns 0.
   */
  lemma StartWritesMeaning(s: AudioSettings, channels: int, routing: seq<bv32>, muteReply: int, packReply: int)
    ensures var w := StartWrites(s, channels, routing, muteReply, packReply);
      |w| >= 1 && w[0] == ConfigByte2(MuteByte(channels, true)) &&
      (muteReply < 0 <==> |w| == 1) &&
      (StartResult(muteReply, packReply) == 0 <==> |w| == |routing| + 8) &&
      (StartResult(muteReply, packReply) == 0 ==> w[|w| - 3..] == Level0Writes())
  {
  }

  /** A routing word with its default OR-ed in. */
  function Route(value: bv32, default: bv32): bv32
  {
    value | default
  }

  /** Whether a routing word has the FIFO-enable bit. */
  predicate Enabled(word: bv32, fifoEnable: bv32)
  {
    word & fifoEnable != 0
  }

  /** Number of routing words with the FIFO-enable bit set. */
  function CountEnabled(routing: seq<bv32>, fifoEnable: bv32): (n: nat)
    ensures n <= |routing|
  {
    if routing == [] then 0
    else CountEnabled(routing[..|routing| - 1], fifoEnable) + (if Enabled(routing[|routing| - 1], fifoEnable) then 1 else 0)
  }

  lemma CountEnabledSnoc(s: seq<bv32>, x: bv32, fifoEnable: bv32)
    ensures CountEnabled(s + [x], fifoEnable) == CountEnabled(s, fifoEnable) + (if Enabled(x, fifoEnable) then 1 else 0)
  {
    assert (s + [x])[..|s|] == s;
  }

  /** The routing words after the defaults are OR-ed in. */
  function Merge(values: seq<bv32>, defaults: seq<bv32>): (r: seq<bv32>)
    requires |values| == |defaults|
    ensures |r| == |values|
    ensures forall i :: 0 <= i < |r| ==> r[i] == Route(values[i], defaults[i])
  {
    seq(|values|, i requires 0 <= i < |values| => Route(values[i], defaults[i]))
  }

  /** Words that all carry the enable bit are all counted. */
  lemma {:induction false} AllEnabledCounted(routing: seq<bv32>, fifoEnable: bv32)
    requires forall i :: 0 <= i < |routing| ==> Enabled(routing[i], fifoEnable)
    ensures CountEnabled(routing, fifoEnable) == |routing|
  {
    if routing != [] {
      var n := |routing| - 1;
      assert forall i :: 0 <= i < n ==> routing[..n][i] == routing[i];
      AllEnabledCounted(routing[..n], fifoEnable);
      assert Enabled(routing[n], fifoEnable);
    }
  }

  /** When every default carries the enable bit, OR-ing the defaults in enables every FIFO. */
  lemma DefaultsEnableAll(values: seq<bv32>, defaults: seq<bv32>, fifoEnable: bv32)
    requires |values| == |defaults|
    requires forall i :: 0 <= i < |defaults| ==> Enabled(defaults[i], fifoEnable)
    ensures CountEnabled(Merge(values, defaults), fifoEnable) == |values|
  {
    var m := Merge(values, defaults);
    forall i | 0 <= i < |m|
      ensures Enabled(m[i], fifoEnable)
    {
      OrKeepsBit(values[i], defaults[i], fifoEnable);
    }
    AllEnabledCounted(m, fifoEnable);
  }

  lemma OrKeepsBit(v: bv32, d: bv32, b: bv32)
    requires d & b != 0
    ensures (v | d) & b != 0
  {
  }

  /**
   * The codec state the driver keeps in its private data: the channel count
   * of the last stream, the DAI format, the four I2S FIFO routing words, the
   * playback channels_max advertised by the codec DAI, and the register
   * writes issued so far.
   */
  class AudioCodec {
    var channels: int
    var fmt: DaiFmt
    var channelsMax: int
    var writes: seq<AudioWrite>
    const routing: array<bv32>

    /** Zeroed private data; the DAI driver starts with channels_max 2. */
    constructor(routing: array<bv32>)
      ensures this.routing == routing
      ensures channels == 0 && fmt == DaiFmt(OtherMaster(0), OtherFormat(0), NbNf) && channelsMax == 2 && writes == []
    {
      this.routing := routing;
      channels := 0;
      fmt := DaiFmt(OtherMaster(0), OtherFormat(0), NbNf);
      channelsMax := 2;
      writes := [];
    }

    /** sii9022_dai_set_fmt: store the format and succeed. */
    method SetFmt(f: DaiFmt) returns (ret: int)
      modifies this`fmt
      ensures fmt == f && ret == 0
    {
      fmt := f;
      ret := 0;
    }

    /** sii9022_dai_digital_mute; `reply` is what the register write returns. */
    method DigitalMute(mute: bool, reply: int) returns (ret: int)
      modifies this`writes
      ensures writes == old(writes) + [ConfigByte2(MuteByte(channels, mute))]
      ensures ret == reply
    {
      writes := writes + [ConfigByte2(MuteByte(channels, mute))];
      ret := reply;
    }

    /** sii9022_audio_stop: disable the audio interface. */
    method AudioStop(reply: int) returns (ret: int)
      modifies this`writes
      ensures writes == old(writes) + [ConfigByte2({InterfaceDisable})]
      ensures ret == reply
    {
      writes := writes + [ConfigByte2({InterfaceDisable})];
      ret := reply;
    }

    /**
     * sii9022_audio_start (reached through hw_params). The channel count is
     * stored before any check; every rejection returns -EINVAL with no
     * register written. `muteReply` and `packReply` are what the mute write
     * and the InfoFrame packer return.
     */
    method AudioStart(paramsChannels: int, pcm: PcmFormat, rate: int, muteReply: int, packReply: int) returns (ret: int)
      modifies this`channels, this`writes
      ensures channels == paramsChannels
      ensures AudioStartPlan(fmt, pcm, rate).Err? ==> ret == -Code(EINVAL) && writes == old(writes)
      ensures AudioStartPlan(fmt, pcm, rate).Ok? ==>
        writes == old(writes) + StartWrites(AudioStartPlan(fmt, pcm, rate).value, paramsChannels, routing[..], muteReply, packReply) &&
        ret == StartResult(muteReply, packReply)
    {
      channels := paramsChannels;
      var plan := AudioStartPlan(fmt, pcm, rate);
      if plan.Err? {
        return -Code(EINVAL);
      }
      ret := StartAccepted(plan.value, muteReply, packReply);
    }

    /** The part of audio_start after its checks: mute, configure, then send the InfoFrame. */
    method StartAccepted(s: AudioSettings, muteReply: int, packReply: int) returns (ret: int)
      modifies this`writes
      ensures writes == old(writes) + StartWrites(s, channels, routing[..], muteReply, packReply)
      ensures ret == StartResult(muteReply, packReply)
    {
      ret := DigitalMute(true, muteReply);
      if ret < 0 {
        return;
      }
      WriteStreamConfig(s);
      if packReply < 0 {
        return packReply;
      }
      WritePackets(s, packReply);
      ret := 0;
    }

    /** The configuration writes of audio_start, one routing word at a time. */
    method WriteStreamConfig(s: AudioSettings)
      modifies this`writes
      ensures writes == old(writes) + ConfigWrites(s, routing[..])
    {
      writes := writes + [I2sInputConfig(s.i2s)];
      var i := 0;
      while i < routing.Length
        invariant 0 <= i <= routing.Length
        invariant writes == old(writes) + [I2sInputConfig(s.i2s)] + MappingWrites(routing[..i])
      {
        writes := writes + [I2sEnableMapping(routing[i])];
        i := i + 1;
        assert MappingWrites(routing[..i]) == MappingWrites(routing[..i - 1]) + [I2sEnableMapping(routing[i - 1])];
      }
      assert routing[..i] == routing[..];
      writes := writes + [ConfigByte3(s.size), StreamHeader(s.status)];
    }

    /** The InfoFrame and Level 0 writes of audio_start; `len` is the packed InfoFrame length. */
    method WritePackets(s: AudioSettings, len: int)
      modifies this`writes
      ensures writes == old(writes) + PacketWrites(s, channels, len)
    {
      writes := writes + PacketWrites(s, channels, len);
    }

    /**
     * sii9022_hdmi_codec_register: read the routing words from the device
     * tree (`dtRet` and `dtValues` are the property read's result), OR each
     * with its default, advertise two channels per enabled FIFO, and return
     * what registering the codec returns (`registerRet`).
     */
    method CodecRegister(dtRet: int, dtValues: seq<bv32>, defaults: seq<bv32>, fifoEnable: bv32, registerRet: int) returns (ret: int)
      requires |dtValues| == routing.Length && |defaults| == routing.Length
      modifies routing, this`channelsMax
      ensures dtRet != 0 ==> ret == dtRet && routing[..] == old(routing[..]) && channelsMax == old(channelsMax)
      ensures dtRet == 0 ==> (ret == registerRet && routing[..] == Merge(dtValues, defaults) &&
        channelsMax == 2 * CountEnabled(routing[..], fifoEnable))
    {
      if dtRet != 0 {
        return dtRet;
      }
      LoadRouting(dtValues);
      var fifosEnabled := MergeDefaults(routing, defaults, fifoEnable);
      channelsMax := 2 * fifosEnabled;
      ret := registerRet;
    }

    /** What the device-tree property read stores into the routing array. */
    method LoadRouting(values: seq<bv32>)
      requires |values| == routing.Length
      modifies routing
      ensures routing[..] == values
    {
      forall i | 0 <= i < routing.Length {
        routing[i] := values[i];
      }
    }
  }

  /** The registration loop: OR each routing word with its default and count the enabled FIFOs. */
  method MergeDefaults(routing: array<bv32>, defaults: seq<bv32>, fifoEnable: bv32) returns (fifosEnabled: nat)
    requires |defaults| == routing.Length
    modifies routing
    ensures routing[..] == Merge(old(routing[..]), defaults)
    ensures fifosEnabled == CountEnabled(routing[..], fifoEnable)
  {
    ghost var orig := routing[..];
    var i := 0;
    fifosEnabled := 0;
    while i < routing.Length
      invariant 0 <= i <= routing.Length
      invariant forall k :: 0 <= k < i ==> routing[k] == Route(orig[k], defaults[k])
      invariant forall k :: i <= k < routing.Length ==> routing[k] == orig[k]
      invariant fifosEnabled == CountEnabled(Merge(orig[..i], defaults[..i]), fifoEnable)
    {
      var word := Route(routing[i], defaults[i]);
      CountMergedStep(orig, defaults, i, fifoEnable);
      routing[i] := word;
      if Enabled(word, fifoEnable) {
        fifosEnabled := fifosEnabled + 1;
      }
      i := i + 1;
    }
    assert orig[..i] == orig && defaults[..i] == defaults;
    assert routing[..] == Merge(orig, defaults);
  }

  /** Merging one more word counts it when it carries the enable bit. */
  lemma CountMergedStep(values: seq<bv32>, defaults: seq<bv32>, i: nat, fifoEnable: bv32)
    requires |values| == |defaults| && i < |values|
    ensures CountEnabled(Merge(values[..i + 1], defaults[..i + 1]), fifoEnable) ==
            CountEnabled(Merge(values[..i], defaults[..i]), fifoEnable) +
            (if Enabled(Route(values[i], defaults[i]), fifoEnable) then 1 else 0)
  {
    var word := Route(values[i], defaults[i]);
    assert Merge(values[..i + 1], defaults[..i + 1]) == Merge(values[..i], defaults[..i]) + [word];
    CountEnabledSnoc(Merge(values[..i], defaults[..i]), word, fifoEnable);
  }

  /** The advertised channel count is even and at most two per routing word. */
  lemma ChannelsMaxBound(routing: seq<bv32>, fifoEnable: bv32)
    ensures var c := 2 * CountEnabled(routing, fifoEnable); c % 2 == 0 && 0 <= c <= 2 * |routing|
  {
  }
}
