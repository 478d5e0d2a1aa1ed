// The video half of the SiI9022 HDMI transmitter driver: reading the
// monitor's EDID over the DDC bus the transmitter lends to the host, parsing
// the CEA-861 extension block for the HDMI capability and the video data
// block, hot-plug interrupt handling and the TMDS power values
// (drivers/hdmi/encoder-sii9022.c).
//
// The register header encoder-sii9022.h is not part of this model: registers
// are named, the size of the driver's EDID buffer and of the video capability
// array are parameters, and the model requires them to be large enough for
// what the parser reads and copies.
module Sii9022Edid {
  import opened Common

  /** An EDID byte. */
  newtype byte = x: int | 0 <= x < 256

  /** Size of one EDID block. */
  const ONE_BLOCK_EDID_LEN: nat := 128

  /** Offset of the extension-block count in the base EDID block. */
  const EXT_COUNT: nat := 0x7E

  /**
   * How far past the start of the extension block the parser can read: a
   * data block header at offset 126 may claim 31 payload bytes.
   */
  const EXT_READ_SPAN: nat := 158

  /** The largest payload a data block header can claim. */
  const MAX_PAYLOAD: nat := 31

  /** Polls allowed in each phase of the DDC bus hand-over. */
  const POLL_COUNT: nat := 100

  /** The capabilities the driver keeps from the CEA extension block. */
  datatype EdidCfg = EdidCfg(
    underscan: bool, basicAudio: bool, ycbcr444: bool, ycbcr422: bool,
    hdmiCap: bool, videoCap: seq<byte>)

  /** The transmitter registers the driver writes. */
  datatype SiiReg = SysCtrl | IrqStatus

  datatype SiiWrite = SiiWrite(reg: SiiReg, value: bv8)

  /** Data block tag: bits 7..5 of the header byte. */
  function Tag(header: byte): (t: int)
    ensures 0 <= t < 8
  {
    header as int / 32
  }

  /** Data block payload length: bits 4..0 of the header byte. */
  function Payload(header: byte): (p: int)
    ensures 0 <= p <= MAX_PAYLOAD
  {
    header as int % 32
  }

  /** A vendor-specific data block (tag 3) whose IEEE OUI bytes are 03 0C 00, the HDMI Licensing OUI 00-0C-03. */
  predicate HdmiBlockAt(blk: seq<byte>, h: int)
  {
    0 <= h && h + 3 < |blk| && Tag(blk[h]) == 3 && blk[h + 1] == 0x03 && blk[h + 2] == 0x0c && blk[h + 3] == 0x00
  }

  /** Bit n of a byte. */
  function Bit(b: byte, n: nat): bool
    requires n < 8
  {
    (b as int / [1, 2, 4, 8, 16, 32, 64, 128][n]) % 2 == 1
  }

  /** Byte 3 of the CEA block: underscan, basic audio, YCbCr 4:4:4 and 4:2:2 support. */
  function Byte3Flags(b: byte, cfg: EdidCfg): EdidCfg
  {
    cfg.(underscan := Bit(b, 7), basicAudio := Bit(b, 6), ycbcr444 := Bit(b, 5), ycbcr422 := Bit(b, 4))
  }

  /**
   * One data block whose header is at offset h: a video data block (tag 2)
   * overwrites the first `length` bytes of video_cap with its payload; an
   * HDMI vendor block sets hdmi_cap; nothing else changes.
   */
  function Block(blk: seq<byte>, h: nat, cfg: EdidCfg): (r: EdidCfg)
    requires h + 1 + MAX_PAYLOAD <= |blk| && |cfg.videoCap| >= MAX_PAYLOAD
    ensures |r.videoCap| == |cfg.videoCap|
    ensures r.(videoCap := cfg.videoCap, hdmiCap := cfg.hdmiCap) == cfg
    ensures r.hdmiCap <==> cfg.hdmiCap || HdmiBlockAt(blk, h)
    ensures Tag(blk[h]) == 2 ==>
      r.videoCap[..Payload(blk[h])] == blk[h + 1..h + 1 + Payload(blk[h])] &&
      r.videoCap[Payload(blk[h])..] == cfg.videoCap[Payload(blk[h])..]
    ensures Tag(blk[h]) != 2 ==> r.videoCap == cfg.videoCap
  {
    var p := Payload(blk[h]);
    var withVideo := if Tag(blk[h]) == 2 then cfg.(videoCap := blk[h + 1..h + 1 + p] + cfg.videoCap[p..]) else cfg;
    if HdmiBlockAt(blk, h) then withVideo.(hdmiCap := true) else withVideo
  }

  /**
   * The data-block walk from `index`, the offset of the last byte consumed:
   * the next header is at index + 1, and the walk stops once that reaches
   * the detailed-timing offset `dto`.
   */
  function Walk(blk: seq<byte>, index: nat, dto: nat, cfg: EdidCfg): (r: EdidCfg)
    requires dto < ONE_BLOCK_EDID_LEN && |blk| >= EXT_READ_SPAN && |cfg.videoCap| >= MAX_PAYLOAD
    ensures |r.videoCap| == |cfg.videoCap|
    ensures r.underscan == cfg.underscan && r.basicAudio == cfg.basicAudio
    ensures r.ycbcr444 == cfg.ycbcr444 && r.ycbcr422 == cfg.ycbcr422
    ensures cfg.hdmiCap ==> r.hdmiCap
    decreases dto - index
  {
    if index + 1 >= dto then cfg
    else Walk(blk, index + 1 + Payload(blk[index + 1]), dto, Block(blk, index + 1, cfg))
  }

  /** The header offsets the walk visits, an independent description of the walk. */
  function Headers(blk: seq<byte>, index: nat, dto: nat): (hs: seq<nat>)
    requires dto < ONE_BLOCK_EDID_LEN && |blk| >= EXT_READ_SPAN
    ensures forall k :: 0 <= k < |hs| ==> index < hs[k] < dto
    ensures |hs| > 0 ==> hs[0] == index + 1
    decreases dto - index
  {
    if index + 1 >= dto then []
    else [index + 1] + Headers(blk, index + 1 + Payload(blk[index + 1]), dto)
  }

  /** Successive headers are one header byte plus one payload apart. */
  predicate Chained(blk: seq<byte>, hs: seq<nat>)
  {
    forall k :: 0 <= k < |hs| - 1 ==> hs[k] < |blk| && hs[k + 1] == hs[k] + 1 + Payload(blk[hs[k]])
  }

  /** The headers the walk visits are chained. */
  lemma {:induction false} HeadersChain(blk: seq<byte>, index: nat, dto: nat)
    requires dto < ONE_BLOCK_EDID_LEN && |blk| >= EXT_READ_SPAN
    ensures Chained(blk, Headers(blk, index, dto))
    decreases dto - index
  {
    if index + 1 < dto {
      var next := index + 1 + Payload(blk[index + 1]);
      HeadersChain(blk, next, dto);
      var hs := Headers(blk, index, dto);
      var tl := Headers(blk, next, dto);
      assert hs == [index + 1] + tl;
      forall k | 0 <= k < |hs| - 1
        ensures hs[k] < |blk| && hs[k + 1] == hs[k] + 1 + Payload(blk[hs[k]])
      {
        if k > 0 {
          assert hs[k] == tl[k - 1] && hs[k + 1] == tl[k];
          assert 0 <= k - 1 < |tl| - 1;
        } else {
          assert hs[1] == tl[0] == next + 1;
        }
      }
    }
  }

  /** The walk ends with hdmi_cap set exactly when it was set before or some visited block is the HDMI vendor block. */
  lemma {:induction false} WalkHdmi(blk: seq<byte>, index: nat, dto: nat, cfg: EdidCfg)
    requires dto < ONE_BLOCK_EDID_LEN && |blk| >= EXT_READ_SPAN && |cfg.videoCap| >= MAX_PAYLOAD
    ensures Walk(blk, index, dto, cfg).hdmiCap <==>
      cfg.hdmiCap || exists h :: h in Headers(blk, index, dto) && HdmiBlockAt(blk, h)
    decreases dto - index
  {
    if index + 1 < dto {
      var next := index + 1 + Payload(blk[index + 1]);
      var b := Block(blk, index + 1, cfg);
      WalkHdmi(blk, next, dto, b);
      var hs := Headers(blk, index, dto);
      assert hs == [index + 1] + Headers(blk, next, dto);
      if HdmiBlockAt(blk, index + 1) {
        assert index + 1 in hs;
      }
      forall h | h in Headers(blk, next, dto)
        ensures h in hs
      {
      }
    }
  }

  /** A walk that visits no video data block leaves video_cap as it was. */
  lemma {:induction false} WalkWithoutVideo(blk: seq<byte>, index: nat, dto: nat, cfg: EdidCfg)
    requires dto < ONE_BLOCK_EDID_LEN && |blk| >= EXT_READ_SPAN && |cfg.videoCap| >= MAX_PAYLOAD
    requires forall h :: h in Headers(blk, index, dto) ==> Tag(blk[h]) != 2
    ensures Walk(blk, index, dto, cfg).videoCap == cfg.videoCap
    decreases dto - index
  {
    if index + 1 < dto {
      var next := index + 1 + Payload(blk[index + 1]);
      var hs := Headers(blk, index, dto);
      assert hs == [index + 1] + Headers(blk, next, dto);
      assert index + 1 in hs;
      forall h | h in Headers(blk, next, dto)
        ensures Tag(blk[h]) != 2
      {
        assert h in hs;
      }
      WalkWithoutVideo(blk, next, dto, Block(blk, index + 1, cfg));
    }
  }

  /**
   * The memory the parser may read: the extension block and the bytes a
   * data block near its end can claim past it. A CEA-861 block puts its
   * detailed timings inside the block; a larger offset would let the
   * `unsigned char` index wrap, and the walk need not end.
   */
  predicate ExtReadable(blk: seq<byte>)
  {
    |blk| >= EXT_READ_SPAN && (blk[0] == 0x02 && blk[1] == 0x03 ==> blk[2] < 0x80)
  }

  /** sii902x_edid_parse_ext_blk as a function of the block and the old configuration. */
  function ParseExt(blk: seq<byte>, cfg: EdidCfg): (r: EdidCfg)
    requires ExtReadable(blk) && |cfg.videoCap| >= MAX_PAYLOAD
  {
    if blk[0] != 0x02 || blk[1] != 0x03 then cfg
    else Walk(blk, 3, blk[2] as nat, Byte3Flags(blk[3], cfg))
  }

  /**
   * The parser leaves the configuration alone unless the block is a CEA
   * extension (tag 02) of revision 3; otherwise it takes the four flags from
   * bits 7..4 of byte 3, never clears hdmi_cap, and sets it exactly when a
   * visited data block is the HDMI vendor block.
   */
  lemma ParseExtMeaning(blk: seq<byte>, cfg: EdidCfg)
    requires ExtReadable(blk) && |cfg.videoCap| >= MAX_PAYLOAD
    ensures var r := ParseExt(blk, cfg);
      (blk[0] != 0x02 || blk[1] != 0x03 ==> r == cfg) &&
      (blk[0] == 0x02 && blk[1] == 0x03 ==>
        r.underscan == Bit(blk[3], 7) && r.basicAudio == Bit(blk[3], 6) &&
        r.ycbcr444 == Bit(blk[3], 5) && r.ycbcr422 == Bit(blk[3], 4) &&
        (r.hdmiCap <==> cfg.hdmiCap || exists h :: h in Headers(blk, 3, blk[2] as nat) && HdmiBlockAt(blk, h))) &&
      (cfg.hdmiCap ==> r.hdmiCap)
  {
    if blk[0] == 0x02 && blk[1] == 0x03 {
      WalkHdmi(blk, 3, blk[2] as nat, Byte3Flags(blk[3], cfg));
    }
  }

  /** The first data block header sits at offset 4, right after the flags byte. */
  lemma FirstHeaderAtFour(blk: seq<byte>)
    requires ExtReadable(blk) && blk[0] == 0x02 && blk[1] == 0x03 && blk[2] > 4
    ensures Headers(blk, 3, blk[2] as nat)[0] == 4
  {
  }

  /** The byte loop of a video data block: the first p bytes of video_cap become the payload. */
  method CopyPayload(blk: seq<byte>, h: nat, p: nat, videoCap: seq<byte>) returns (v: seq<byte>)
    requires h + 1 + p <= |blk| && p <= |videoCap|
    ensures v == blk[h + 1..h + 1 + p] + videoCap[p..]
  {
    v := videoCap;
    var i := 0;
    while i < p
      invariant 0 <= i <= p && |v| == |videoCap|
      invariant forall j :: 0 <= j < i ==> v[j] == blk[h + 1 + j]
      invariant forall j :: i <= j < |v| ==> v[j] == videoCap[j]
    {
      v := v[i := blk[h + 1 + i]];
      i := i + 1;
    }
    assert v == blk[h + 1..h + 1 + p] + videoCap[p..] by {
      forall j | 0 <= j < |v|
        ensures v[j] == (blk[h + 1..h + 1 + p] + videoCap[p..])[j]
      {
      }
    }
  }

  /** One data block of the walk: a video block's payload goes to video_cap, the HDMI vendor block sets hdmi_cap. */
  method ParseDataBlock(blk: seq<byte>, h: nat, cfg: EdidCfg) returns (r: EdidCfg)
    requires h + 1 + MAX_PAYLOAD <= |blk| && |cfg.videoCap| >= MAX_PAYLOAD
    ensures r == Block(blk, h, cfg)
  {
    r := cfg;
    var tagCode := Tag(blk[h]);
    var payload := Payload(blk[h]);
    if tagCode == 2 {
      var v := CopyPayload(blk, h, payload, r.videoCap);
      r := r.(videoCap := v);
    }
    if tagCode == 3 {
      if blk[h + 1] == 0x03 && blk[h + 2] == 0x0c && blk[h + 3] == 0x00 {
        r := r.(hdmiCap := true);
      }
    }
  }

  /**
   * sii902x_edid_parse_ext_blk on the bytes from the start of the extension
   * block; the configuration the C function fills through a pointer is
   * passed in and returned.
   */
  method ParseExtBlk(blk: seq<byte>, cfg: EdidCfg) returns (r: EdidCfg)
    requires ExtReadable(blk) && |cfg.videoCap| >= MAX_PAYLOAD
    ensures r == ParseExt(blk, cfg)
  {
    r := cfg;
    if blk[0] != 0x02 || blk[1] != 0x03 {
      return;
    }
    var dto := blk[2] as nat;
    r := Byte3Flags(blk[3], r);
    ghost var target := Walk(blk, 3, dto, r);
    var index := 3;
    while index + 1 < dto
      invariant 3 <= index <= dto + MAX_PAYLOAD && |r.videoCap| >= MAX_PAYLOAD
      invariant Walk(blk, index, dto, r) == target
      decreases dto - index
    {
      index := index + 1;
      r := ParseDataBlock(blk, index, r);
      index := index + Payload(blk[index]);
    }
  }

  /** The value sii902x_edid_read returns. */
  function EdidReadRet(adapter: bool, block0: seq<byte>, extRet: int): int
    requires |block0| == ONE_BLOCK_EDID_LEN
  {
    if !adapter then -Code(EINVAL)
    else if block0[EXT_COUNT] > 1 then -Code(ENODEV)
    else if block0[EXT_COUNT] == 1 && extRet < 0 then extRet
    else 0
  }

  /** edid_read fails only without an adapter, with more than one extension, or when the extension transfer fails. */
  lemma EdidReadRetMeaning(adapter: bool, block0: seq<byte>, extRet: int)
    requires |block0| == ONE_BLOCK_EDID_LEN
    ensures EdidReadRet(adapter, block0, extRet) == 0 <==>
      adapter && (block0[EXT_COUNT] == 0 || (block0[EXT_COUNT] == 1 && extRet >= 0))
    ensures extRet < 0 && extRet != -Code(EINVAL) && extRet != -Code(ENODEV) ==>
      (EdidReadRet(adapter, block0, extRet) == extRet <==> adapter && block0[EXT_COUNT] == 1)
  {
  }

  function Zeros(n: nat): (z: seq<byte>)
    ensures |z| == n && forall i :: 0 <= i < n ==> z[i] == 0
  {
    seq(n, _ => 0)
  }

  /** The two phases of the DDC bus hand-over and the status each waits for. */
  datatype Phase = Request | Release

  /** Request waits for the bus-grant bit (bit 1); release waits for both request bits (bits 2..1) to clear. */
  predicate Stops(d: bv8, phase: Phase)
  {
    match phase
    case Request => d & 0x2 != 0
    case Release => d & 0x6 == 0
  }

  /** The index of the first status read that ends the wait, or |status| when none does. */
  function FirstStop(status: seq<bv8>, phase: Phase): (k: nat)
    ensures k <= |status|
    ensures forall j :: 0 <= j < k ==> !Stops(status[j], phase)
    ensures k < |status| ==> Stops(status[k], phase)
  {
    if status == [] then 0
    else if Stops(status[0], phase) then 0
    else 1 + FirstStop(status[1..], phase)
  }

  /** No read before the k-th ends the wait, so the first stopping read is at k or later. */
  lemma {:induction false} FirstStopAtLeast(status: seq<bv8>, phase: Phase, k: nat)
    requires k <= |status| && forall j :: 0 <= j < k ==> !Stops(status[j], phase)
    ensures FirstStop(status, phase) >= k
  {
    if k > 0 {
      assert !Stops(status[0], phase);
      forall j | 0 <= j < k - 1
        ensures !Stops(status[1..][j], phase)
      {
        assert status[1..][j] == status[j + 1];
      }
      FirstStopAtLeast(status[1..], phase, k - 1);
    }
  }

  /** Number of status reads a phase makes: up to and including the first that ends the wait, at most 100. */
  function Polls(status: seq<bv8>, phase: Phase): (n: nat)
    requires |status| == POLL_COUNT
    ensures 1 <= n <= POLL_COUNT
  {
    Min(FirstStop(status, phase) + 1, POLL_COUNT)
  }

  /**
   * The source's verdict on a phase: the counter left after the
   * do-while loop, which counts down before each read and fails the phase
   * when it reaches zero.
   */
  function CounterLeft(status: seq<bv8>, phase: Phase): int
    requires |status| == POLL_COUNT
  {
    POLL_COUNT - Polls(status, phase)
  }

  /** As written, a phase succeeds only when the wait ended within the first 99 reads. */
  lemma CounterVerdictAsWritten(status: seq<bv8>, phase: Phase)
    requires |status| == POLL_COUNT
    ensures CounterLeft(status, phase) != 0 <==> exists k :: 0 <= k < POLL_COUNT - 1 && Stops(status[k], phase)
  {
    var f := FirstStop(status, phase);
    if CounterLeft(status, phase) != 0 {
      assert Stops(status[f], phase);
    }
  }

  /** The status reads in which only the 100th shows the bus granted. */
  function GrantOnLastPoll(): (status: seq<bv8>)
    ensures |status| == POLL_COUNT
  {
    seq(POLL_COUNT, i => if i == POLL_COUNT - 1 then 0x2 else 0x0)
  }

  /** With the grant on the 100th read, the counter is spent and the request phase is reported as a timeout. */
  lemma LastPollGrantIsLost()
    ensures var status := GrantOnLastPoll();
      Stops(status[POLL_COUNT - 1], Request) && CounterLeft(status, Request) == 0
  {
    var status := GrantOnLastPoll();
    assert Stops(status[POLL_COUNT - 1], Request);
    assert forall j :: 0 <= j < POLL_COUNT - 1 ==> !Stops(status[j], Request);
    FirstStopAtLeast(status, Request, POLL_COUNT - 1);
  }

  /** The corrected verdict: judge a phase by the last status read. */
  function PhaseOk(status: seq<bv8>, phase: Phase): bool
    requires |status| == POLL_COUNT
  {
    Stops(status[Polls(status, phase) - 1], phase)
  }

  /** A phase succeeds exactly when one of its 100 reads ends the wait. */
  lemma PhaseOkMeaning(status: seq<bv8>, phase: Phase)
    requires |status| == POLL_COUNT
    ensures PhaseOk(status, phase) <==> exists k :: 0 <= k < POLL_COUNT && Stops(status[k], phase)
  {
    var f := FirstStop(status, phase);
    if exists k :: 0 <= k < POLL_COUNT && Stops(status[k], phase) {
      assert f < POLL_COUNT;
    }
  }

  /** The request phase: poll SYS_CTRL until the bus is granted, at most 100 times. */
  method PollRequest(status: seq<bv8>) returns (cnt: int, dat: bv8)
    requires |status| == POLL_COUNT
    ensures cnt == CounterLeft(status, Request)
    ensures dat == status[Polls(status, Request) - 1]
  {
    var polls := 0;
    cnt := POLL_COUNT;
    cnt := cnt - 1;
    dat := status[polls];
    polls := polls + 1;
    while !Stops(dat, Request) && cnt != 0
      invariant 1 <= polls <= POLL_COUNT && cnt == POLL_COUNT - polls && dat == status[polls - 1]
      invariant forall j :: 0 <= j < polls - 1 ==> !Stops(status[j], Request)
      decreases cnt
    {
      cnt := cnt - 1;
      dat := status[polls];
      polls := polls + 1;
    }
    PollsStopAt(status, Request, polls);
  }

  /** A loop that stopped after `polls` reads, at the first stopping read or at the limit, made Polls(...) reads. */
  lemma PollsStopAt(status: seq<bv8>, phase: Phase, polls: nat)
    requires |status| == POLL_COUNT && 1 <= polls <= POLL_COUNT
    requires forall j :: 0 <= j < polls - 1 ==> !Stops(status[j], phase)
    requires Stops(status[polls - 1], phase) || polls == POLL_COUNT
    ensures Polls(status, phase) == polls
  {
    FirstStopAtLeast(status, phase, polls - 1);
  }

  /** Power-on value of SYS_CTRL: HDMI or DVI output with TMDS running. */
  function PowerOnValue(hdmiCap: bool): (v: bv8)
    ensures v & 0x10 == 0
    ensures v & 0x01 != 0 <==> hdmiCap
  {
    if hdmiCap then 0x01 else 0x00
  }

  /** Power-off value of SYS_CTRL: the same output mode with the TMDS power-down bit set. */
  function PowerOffValue(hdmiCap: bool): (v: bv8)
    ensures v & 0x10 != 0
    ensures v & 0x01 != 0 <==> hdmiCap
  {
    if hdmiCap then 0x11 else 0x10
  }

  /** Powering off differs from powering on only in the TMDS power-down bit. */
  lemma PowerValuesDiffer(hdmiCap: bool)
    ensures PowerOffValue(hdmiCap) == PowerOnValue(hdmiCap) | 0x10
    ensures PowerOffValue(hdmiCap) & !0x10 == PowerOnValue(hdmiCap)
  {
  }

  /** The SYS_CTRL writes made while the host holds the DDC bus: the grant request, then the release polls if the EDID was read. */
  function BorrowWrites(sys: bv8, edidRet: int, relStatus: seq<bv8>): seq<SiiWrite>
    requires |relStatus| == POLL_COUNT
  {
    [SiiWrite(SysCtrl, sys | 0x6)] +
    (if edidRet != 0 then [] else seq(Polls(relStatus, Release), _ => SiiWrite(SysCtrl, sys & !0x6)))
  }

  /** The SYS_CTRL writes of a whole EDID read, with the corrected phase verdicts. */
  function ReadEdidWrites(sys: bv8, reqStatus: seq<bv8>, edidRet: int, relStatus: seq<bv8>): seq<SiiWrite>
    requires |reqStatus| == POLL_COUNT && |relStatus| == POLL_COUNT
  {
    [SiiWrite(SysCtrl, sys | 0x4)] +
    (if PhaseOk(reqStatus, Request) then BorrowWrites(sys, edidRet, relStatus) else []) +
    [SiiWrite(SysCtrl, sys)]
  }

  /** Every outcome of an EDID read asks for the bus first and gives SYS_CTRL its old value last. */
  lemma ReadEdidRestores(sys: bv8, reqStatus: seq<bv8>, edidRet: int, relStatus: seq<bv8>)
    requires |reqStatus| == POLL_COUNT && |relStatus| == POLL_COUNT
    ensures var w := ReadEdidWrites(sys, reqStatus, edidRet, relStatus);
      |w| >= 2 && w[0] == SiiWrite(SysCtrl, sys | 0x4) && w[|w| - 1] == SiiWrite(SysCtrl, sys) &&
      |w| <= POLL_COUNT + 3
  {
  }

  /**
   * The transmitter's driver state: whether a cable is plugged in, the
   * capabilities parsed from the EDID, the EDID buffer, the register writes
   * issued, and the number of times the detection work was scheduled.
   */
  class Sii902x {
    const edidLen: nat
    var cablePlugin: int
    var cfg: EdidCfg
    var edid: seq<byte>
    var writes: seq<SiiWrite>
    var workScheduled: nat

    /** Zeroed driver data; `edidLen` and `videoCapLen` are the buffer sizes the header fixes. */
    constructor(edidLen: nat, videoCapLen: nat)
      requires edidLen >= ONE_BLOCK_EDID_LEN + EXT_READ_SPAN && videoCapLen >= MAX_PAYLOAD
      ensures this.edidLen == edidLen && edid == Zeros(edidLen) && writes == [] && cablePlugin == 0 && workScheduled == 0
      ensures cfg == EdidCfg(false, false, false, false, false, Zeros(videoCapLen))
    {
      this.edidLen := edidLen;
      cablePlugin := 0;
      cfg := EdidCfg(false, false, false, false, false, Zeros(videoCapLen));
      edid := Zeros(edidLen);
      writes := [];
      workScheduled := 0;
    }

    /** sii902x_poweron */
    method PowerOn()
      modifies this`writes
      ensures writes == old(writes) + [SiiWrite(SysCtrl, PowerOnValue(cfg.hdmiCap))]
    {
      writes := writes + [SiiWrite(SysCtrl, PowerOnValue(cfg.hdmiCap))];
    }

    /** sii902x_poweroff: disable TMDS before the mode changes. */
    method PowerOff()
      modifies this`writes
      ensures writes == old(writes) + [SiiWrite(SysCtrl, PowerOffValue(cfg.hdmiCap))]
    {
      writes := writes + [SiiWrite(SysCtrl, PowerOffValue(cfg.hdmiCap))];
    }

    /**
     * sii902x_edid_read. `block0` is what the first transfer leaves in the
     * buffer (zeros when it failed, since its result is ignored); `extRet`
     * and `ext` are the result and the data of the extension transfer.
     */
    method EdidRead(adapter: bool, block0: seq<byte>, extRet: int, ext: seq<byte>) returns (ret: int)
      requires |edid| == edidLen && edidLen >= ONE_BLOCK_EDID_LEN + EXT_READ_SPAN && |cfg.videoCap| >= MAX_PAYLOAD
      requires |block0| == ONE_BLOCK_EDID_LEN && |ext| == ONE_BLOCK_EDID_LEN
      requires adapter && block0[EXT_COUNT] == 1 && extRet >= 0 && ext[0] == 0x02 && ext[1] == 0x03 ==> ext[2] < 0x80
      modifies this`edid, this`cfg
      ensures ret == EdidReadRet(adapter, block0, extRet)
      ensures !adapter ==> edid == old(edid) && cfg == old(cfg)
      ensures adapter && (block0[EXT_COUNT] != 1 || extRet < 0) ==>
        edid == block0 + Zeros(edidLen - ONE_BLOCK_EDID_LEN) && cfg == old(cfg)
      ensures adapter && block0[EXT_COUNT] == 1 && extRet >= 0 ==>
        edid == block0 + ext + Zeros(edidLen - 2 * ONE_BLOCK_EDID_LEN) &&
        cfg == ParseExt(edid[ONE_BLOCK_EDID_LEN..], old(cfg))
    {
      if !adapter {
        return -Code(EINVAL);
      }
      edid := block0 + Zeros(edidLen - ONE_BLOCK_EDID_LEN);
      if block0[EXT_COUNT] != 0 {
        if block0[EXT_COUNT] > 1 {
          return -Code(ENODEV);
        }
        if extRet < 0 {
          return extRet;
        }
        edid := block0 + ext + Zeros(edidLen - 2 * ONE_BLOCK_EDID_LEN);
        assert edid[ONE_BLOCK_EDID_LEN..][..ONE_BLOCK_EDID_LEN] == ext;
        cfg := ParseExtBlk(edid[ONE_BLOCK_EDID_LEN..], cfg);
      }
      ret := 0;
    }

    /** The release phase: write SYS_CTRL with the request bits cleared and poll, at most 100 times. */
    method PollRelease(sys: bv8, status: seq<bv8>) returns (cnt: int, dat: bv8)
      requires |status| == POLL_COUNT
      modifies this`writes
      ensures writes == old(writes) + seq(Polls(status, Release), _ => SiiWrite(SysCtrl, sys & !0x6))
      ensures cnt == CounterLeft(status, Release)
      ensures dat == status[Polls(status, Release) - 1]
    {
      var w := SiiWrite(SysCtrl, sys & !0x6);
      var polls := 0;
      cnt := POLL_COUNT;
      cnt := cnt - 1;
      writes := writes + [w];
      dat := status[polls];
      polls := polls + 1;
      while Stops(dat, Release) == false && cnt != 0
        invariant 1 <= polls <= POLL_COUNT && cnt == POLL_COUNT - polls && dat == status[polls - 1]
        invariant forall j :: 0 <= j < polls - 1 ==> !Stops(status[j], Release)
        invariant writes == old(writes) + seq(polls, _ => w)
        decreases cnt
      {
        cnt := cnt - 1;
        writes := writes + [w];
        dat := status[polls];
        polls := polls + 1;
      }
      PollsStopAt(status, Release, polls);
    }

    /** The part of sii902x_read_edid that runs once the bus is granted: read the EDID, then hand the bus back. */
    method ReadWhileGranted(sys: bv8, adapter: bool, block0: seq<byte>, extRet: int, ext: seq<byte>,
                            relStatus: seq<bv8>) returns (ret: int)
      requires |relStatus| == POLL_COUNT
      requires |edid| == edidLen && edidLen >= ONE_BLOCK_EDID_LEN + EXT_READ_SPAN && |cfg.videoCap| >= MAX_PAYLOAD
      requires |block0| == ONE_BLOCK_EDID_LEN && |ext| == ONE_BLOCK_EDID_LEN
      requires adapter && block0[EXT_COUNT] == 1 && extRet >= 0 && ext[0] == 0x02 && ext[1] == 0x03 ==> ext[2] < 0x80
      modifies this`edid, this`cfg, this`writes
      ensures ret == 0 <==> EdidReadRet(adapter, block0, extRet) == 0 && PhaseOk(relStatus, Release)
      ensures ret == 0 || ret == -1
      ensures writes == old(writes) + BorrowWrites(sys, EdidReadRet(adapter, block0, extRet), relStatus)
    {
      writes := writes + [SiiWrite(SysCtrl, sys | 0x6)];
      ret := EdidRead(adapter, block0, extRet, ext);
      if ret != 0 {
        ret := -1;
      } else {
        var cnt, dat := PollRelease(sys, relStatus);
        if !Stops(dat, Release) {
          ret := -1;
        }
      }
    }

    /**
     * sii902x_read_edid: borrow the DDC bus, read the EDID, hand the bus
     * back, and restore SYS_CTRL on every path. `sys` is the SYS_CTRL value
     * read first, and `reqStatus`/`relStatus` the status reads of the two
     * phases. Each phase is judged by its last status read.
     */
    method ReadEdid(sys: bv8, reqStatus: seq<bv8>, adapter: bool, block0: seq<byte>, extRet: int, ext: seq<byte>,
                    relStatus: seq<bv8>) returns (ret: int)
      requires |reqStatus| == POLL_COUNT && |relStatus| == POLL_COUNT
      requires |edid| == edidLen && edidLen >= ONE_BLOCK_EDID_LEN + EXT_READ_SPAN && |cfg.videoCap| >= MAX_PAYLOAD
      requires |block0| == ONE_BLOCK_EDID_LEN && |ext| == ONE_BLOCK_EDID_LEN
      requires adapter && block0[EXT_COUNT] == 1 && extRet >= 0 && ext[0] == 0x02 && ext[1] == 0x03 ==> ext[2] < 0x80
      modifies this`edid, this`cfg, this`writes
      ensures ret == 0 <==> PhaseOk(reqStatus, Request) && EdidReadRet(adapter, block0, extRet) == 0 && PhaseOk(relStatus, Release)
      ensures ret == 0 || ret == -1
      ensures writes == old(writes) + ReadEdidWrites(sys, reqStatus, EdidReadRet(adapter, block0, extRet), relStatus)
      ensures !PhaseOk(reqStatus, Request) ==> edid == old(edid) && cfg == old(cfg)
    {
      writes := writes + [SiiWrite(SysCtrl, sys | 0x4)];
      ghost var asked := writes;
      var cnt, dat := PollRequest(reqStatus);
      if !Stops(dat, Request) {
        ret := -1;
      } else {
        ret := ReadWhileGranted(sys, adapter, block0, extRet, ext, relStatus);
      }
      ghost var middle := if PhaseOk(reqStatus, Request) then BorrowWrites(sys, EdidReadRet(adapter, block0, extRet), relStatus) else [];
      assert writes == asked + middle;
      writes := writes + [SiiWrite(SysCtrl, sys)];
    }

    /**
     * sii902x_handle_hpd. `readRet`/`dat` are the interrupt status read and
     * `writeRet` the result of writing the status back. A plug-in event
     * records the cable and schedules the EDID work; an unplug powers the
     * transmitter off.
     */
    method HandleHpd(readRet: int, dat: bv8, writeRet: int) returns (ret: int)
      modifies this`cablePlugin, this`workScheduled, this`writes
      ensures readRet < 0 ==>
        ret == -Code(EINVAL) && cablePlugin == old(cablePlugin) && workScheduled == old(workScheduled) && writes == old(writes)
      ensures readRet >= 0 ==> ret == (if writeRet < 0 then -Code(EINVAL) else 0)
      ensures readRet >= 0 && dat & 0x1 != 0 && dat & 0x4 != 0 ==>
        cablePlugin == 1 && workScheduled == old(workScheduled) + 1 && writes == old(writes) + [SiiWrite(IrqStatus, dat)]
      ensures readRet >= 0 && dat & 0x1 != 0 && dat & 0x4 == 0 ==>
        cablePlugin == 0 && workScheduled == old(workScheduled) &&
        writes == old(writes) + [SiiWrite(SysCtrl, PowerOffValue(cfg.hdmiCap)), SiiWrite(IrqStatus, dat)]
      ensures readRet >= 0 && dat & 0x1 == 0 ==>
        cablePlugin == old(cablePlugin) && workScheduled == old(workScheduled) && writes == old(writes) + [SiiWrite(IrqStatus, dat)]
    {
      if readRet < 0 {
        return -Code(EINVAL);
      }
      if dat & 0x1 != 0 {
        if dat & 0x4 != 0 {
          cablePlugin := 1;
          workScheduled := workScheduled + 1;
        } else {
          PowerOff();
          cablePlugin := 0;
        }
      }
      writes := writes + [SiiWrite(IrqStatus, dat)];
      if writeRet < 0 {
        return -Code(EINVAL);
      }
      ret := 0;
    }
  }
}
