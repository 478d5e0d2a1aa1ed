// The ALSA SoC machine driver for Atmel boards whose SSC audio port feeds
// the SiI9022 HDMI encoder: the bit-clock and frame-period dividers that
// hw_params programs into the SSC, and the master-clock handling on bias
// level changes (sound/soc/atmel/atmel_sii9022.c).
module AsocSii9022 {
  import opened Common

  /** The SSC dividers the machine driver asks the CPU DAI to set. */
  datatype SscDiv = CmrDiv | TcmrPeriod | RcmrPeriod

  /** One snd_soc_dai_set_clkdiv request. */
  datatype ClkdivCall = ClkdivCall(div: SscDiv, value: int)

  /**
   * What hw_params sees from outside the file: whether the "mck" clock
   * lookup succeeded and its rate (an `unsigned long`, 32 bits on ARM), the
   * bit clock snd_soc_params_to_bclk computed, the stream rate, and the
   * value the CPU DAI returns to each set_clkdiv request in turn.
   */
  datatype HwParamsEnv = HwParamsEnv(mckFound: bool, mclkRate: nat, bclkRate: int, rate: nat, daiReplies: seq<int>)

  /** What hw_params did: its return value and the divider requests it made, in order. */
  datatype HwParamsOutcome = HwParamsOutcome(ret: int, calls: seq<ClkdivCall>)

  /**
   * The environments hw_params can run in: the DAI answers each of the
   * three requests, and the two divisions the code performs once the clock
   * checks have passed have non-zero divisors (a zero bit clock or rate
   * divides by zero in the source).
   */
  predicate WellFormedEnv(e: HwParamsEnv)
  {
    e.mclkRate < TWO32 && |e.daiReplies| == 3 &&
    (e.mckFound && e.bclkRate >= 0 ==> e.bclkRate > 0 && e.rate > 0)
  }

  /** bclk_div: a quarter of the master clock, divided by the bit clock. */
  function BclkDiv(mclkRate: nat, bclkRate: int): (r: nat)
    requires bclkRate > 0
    ensures r * (4 * bclkRate) <= mclkRate < (r + 1) * (4 * bclkRate)
  {
    DivDiv(mclkRate, 4, bclkRate);
    (mclkRate / 4) / bclkRate
  }

  /**
   * period: half the bit clocks of one frame, less one. The division is
   * carried out in `unsigned int` and stored back into an `int`, so a bit
   * clock below two bits a frame gives -1, as the signed formula does.
   */
  function Period(bclkRate: int, rate: nat): (r: int)
    requires bclkRate > 0 && rate > 0
    ensures r >= -1
    ensures 2 * (r + 1) <= bclkRate / rate < 2 * (r + 2)
  {
    (bclkRate / rate) / 2 - 1
  }

  /** Floor division by a and then by b is floor division by a * b. */
  lemma {:induction false} DivDiv(m: nat, a: nat, b: nat)
    requires a > 0 && b > 0
    ensures (m / a) / b * (a * b) <= m < ((m / a) / b + 1) * (a * b)
  {
    var q1 := m / a;
    var q := q1 / b;
    assert q1 * a <= m < (q1 + 1) * a;
    assert q * b <= q1 < (q + 1) * b;
    assert q * b * a <= q1 * a by {
      MulMono(q * b, q1, a);
    }
    assert (q1 + 1) * a <= (q + 1) * b * a by {
      MulMono(q1 + 1, (q + 1) * b, a);
    }
    assert q * b * a == q * (a * b);
    assert (q + 1) * b * a == (q + 1) * (a * b);
  }

  /** The three requests hw_params makes when nothing fails. */
  function Requests(e: HwParamsEnv): seq<ClkdivCall>
    requires e.bclkRate > 0 && e.rate > 0
  {
    var period := Period(e.bclkRate, e.rate);
    [ClkdivCall(CmrDiv, BclkDiv(e.mclkRate, e.bclkRate)), ClkdivCall(TcmrPeriod, period), ClkdivCall(RcmrPeriod, period)]
  }

  /**
   * atmel_asoc_sii9022_hw_params, with the early returns of the source. The
   * clock checks fail before any divider is requested; otherwise the
   * requests made are a prefix of the three, ending at the first one the
   * DAI refuses, whose error is returned; 0 is returned exactly when all
   * three are accepted.
   */
  function HwParams(e: HwParamsEnv): (o: HwParamsOutcome)
    requires WellFormedEnv(e)
    ensures !e.mckFound ==> o.ret == -Code(ENODEV) && o.calls == []
    ensures e.mckFound && e.bclkRate < 0 ==> o.ret == -Code(EINVAL) && o.calls == []
    ensures e.mckFound && e.bclkRate >= 0 ==>
      var n := |o.calls|;
      1 <= n <= 3 && o.calls == Requests(e)[..n] &&
      (forall k :: 0 <= k < n - 1 ==> e.daiReplies[k] >= 0) &&
      (o.ret == 0 <==> forall k :: 0 <= k < 3 ==> e.daiReplies[k] >= 0) &&
      (o.ret != 0 ==> o.ret == e.daiReplies[n - 1] < 0)
  {
    if !e.mckFound then HwParamsOutcome(-Code(ENODEV), [])
    else if e.bclkRate < 0 then HwParamsOutcome(-Code(EINVAL), [])
    else
      var c0 := ClkdivCall(CmrDiv, BclkDiv(e.mclkRate, e.bclkRate));
      if e.daiReplies[0] < 0 then HwParamsOutcome(e.daiReplies[0], [c0])
      else
        var period := Period(e.bclkRate, e.rate);
        var c1 := ClkdivCall(TcmrPeriod, period);
        if e.daiReplies[1] < 0 then HwParamsOutcome(e.daiReplies[1], [c0, c1])
        else
          var c2 := ClkdivCall(RcmrPeriod, period);
          if e.daiReplies[2] < 0 then HwParamsOutcome(e.daiReplies[2], [c0, c1, c2])
          else HwParamsOutcome(0, [c0, c1, c2])
  }

  /** Transmit and receive frames get the same period, and the bit-clock divider is within a 32-bit `int`. */
  lemma HwParamsSamePeriod(e: HwParamsEnv)
    requires WellFormedEnv(e)
    ensures var o := HwParams(e);
      (|o.calls| == 3 ==> o.calls[1].value == o.calls[2].value) &&
      (|o.calls| >= 1 ==> 0 <= o.calls[0].value < 0x4000_0000)
  {
    var o := HwParams(e);
    if |o.calls| >= 1 {
      var d := BclkDiv(e.mclkRate, e.bclkRate);
      assert d * (4 * e.bclkRate) <= e.mclkRate;
      MulMono(1, e.bclkRate, 4 * d);
      assert 4 * d <= d * (4 * e.bclkRate);
    }
  }

  /** The ASoC bias levels. */
  datatype BiasLevel = BiasOff | BiasStandby | BiasPrepare | BiasOn

  /** What atmel_set_bias_level does to the master clock. */
  datatype ClockAction = PrepareEnable | DisableUnprepare

  /**
   * atmel_set_bias_level: from STANDBY, going to PREPARE enables the master
   * clock and going to OFF disables it; nothing else touches it, and the
   * result is always 0. The static `mclk` it uses is never assigned in this
   * file, so the model demands that a clock exists whenever it would act.
   */
  function SetBiasLevel(current: BiasLevel, level: BiasLevel, mclkAssigned: bool): (r: (int, seq<ClockAction>))
    requires current == BiasStandby && level in {BiasPrepare, BiasOff} ==> mclkAssigned
    ensures r.0 == 0
    ensures |r.1| <= 1
    ensures r.1 != [] <==> current == BiasStandby && (level == BiasPrepare || level == BiasOff)
    ensures r.1 == [PrepareEnable] <==> current == BiasStandby && level == BiasPrepare
  {
    if current == BiasStandby then
      match level
      case BiasPrepare => (0, [PrepareEnable])
      case BiasOff => (0, [DisableUnprepare])
      case _ => (0, [])
    else (0, [])
  }

  /** Position of a bias level in the ASoC order OFF < STANDBY < PREPARE < ON. */
  function Rank(l: BiasLevel): nat
  {
    match l
    case BiasOff => 0
    case BiasStandby => 1
    case BiasPrepare => 2
    case BiasOn => 3
  }

  /** Neighbouring levels in that order. */
  predicate Adjacent(a: BiasLevel, b: BiasLevel)
  {
    Rank(a) + 1 == Rank(b) || Rank(b) + 1 == Rank(a)
  }

  /** The DAPM core moves the bias one level at a time. */
  predicate Stepwise(p: seq<BiasLevel>)
  {
    forall i :: 0 <= i < |p| - 1 ==> Adjacent(p[i], p[i + 1])
  }

  /** STANDBY is only passed through: the walk never turns back there (the idle_bias_off behaviour). */
  predicate PassesThroughStandby(p: seq<BiasLevel>)
  {
    forall i :: 0 <= i < |p| - 2 && p[i + 1] == BiasStandby ==> p[i + 2] != p[i]
  }

  /** Enables minus disables in a list of clock actions. */
  function Net(acts: seq<ClockAction>): int
  {
    multiset(acts)[PrepareEnable] as int - multiset(acts)[DisableUnprepare] as int
  }

  /** The net master-clock enables after atmel_set_bias_level has run on every change of the walk p. */
  function ClockCount(p: seq<BiasLevel>, mclkAssigned: bool): int
    requires mclkAssigned
  {
    if |p| < 2 then 0
    else ClockCount(p[..|p| - 1], mclkAssigned) + Net(SetBiasLevel(p[|p| - 2], p[|p| - 1], mclkAssigned).1)
  }

  /** Whether the clock should be held at the end of the walk: in PREPARE or ON, or in STANDBY on the way down. */
  predicate ClockHeld(p: seq<BiasLevel>)
  {
    |p| > 0 && (p[|p| - 1] in {BiasPrepare, BiasOn} || (p[|p| - 1] == BiasStandby && |p| >= 2 && p[|p| - 2] == BiasPrepare))
  }

  /**
   * Starting from OFF, on any stepwise walk that passes through STANDBY the
   * master clock is enabled once while it is needed and not at all
   * otherwise: enables and disables balance, and every return to OFF leaves
   * the clock disabled.
   */
  lemma {:induction false} ClockBalancedThroughStandby(p: seq<BiasLevel>, mclkAssigned: bool)
    requires mclkAssigned && |p| > 0 && p[0] == BiasOff && Stepwise(p) && PassesThroughStandby(p)
    ensures ClockCount(p, mclkAssigned) == if ClockHeld(p) then 1 else 0
    ensures p[|p| - 1] == BiasOff ==> ClockCount(p, mclkAssigned) == 0
  {
    if |p| >= 2 {
      var q := p[..|p| - 1];
      assert Stepwise(q) && PassesThroughStandby(q);
      ClockBalancedThroughStandby(q, mclkAssigned);
      var n := |p|;
      if n == 2 {
        BiasStep(BiasOff, false, p[0], p[1], mclkAssigned);
      } else {
        assert Adjacent(p[n - 3], p[n - 2]);
        BiasStep(p[n - 3], true, p[n - 2], p[n - 1], mclkAssigned);
      }
    }
  }

  /** One bias change of ClockBalancedThroughStandby, from a (reached from z when hasZ) to b. */
  lemma BiasStep(z: BiasLevel, hasZ: bool, a: BiasLevel, b: BiasLevel, mclkAssigned: bool)
    requires mclkAssigned && Adjacent(a, b)
    requires hasZ ==> Adjacent(z, a) && (a == BiasStandby ==> b != z)
    requires !hasZ ==> a == BiasOff
    ensures (if a in {BiasPrepare, BiasOn} || (a == BiasStandby && hasZ && z == BiasPrepare) then 1 else 0)
      + Net(SetBiasLevel(a, b, mclkAssigned).1)
      == if b in {BiasPrepare, BiasOn} || (b == BiasStandby && a == BiasPrepare) then 1 else 0
  {
    assert Net([]) == 0;
    assert Net([PrepareEnable]) == 1;
    assert Net([DisableUnprepare]) == -1;
  }

  /**
   * Where STANDBY is the idle level instead, a second stream started from
   * STANDBY enables the clock again before it was ever disabled.
   */
  lemma StandbyIdleEnablesTwice()
    ensures var p := [BiasOff, BiasStandby, BiasPrepare, BiasStandby, BiasPrepare];
      Stepwise(p) && ClockCount(p, true) == 2
  {
    var p := [BiasOff, BiasStandby, BiasPrepare, BiasStandby, BiasPrepare];
    assert ClockCount(p[..2], true) == 0 by { assert p[..2][..1] == [BiasOff]; }
    assert ClockCount(p[..3], true) == 1 by { assert p[..3][..2] == p[..2]; }
    assert ClockCount(p[..4], true) == 1 by { assert p[..4][..3] == p[..3]; }
    assert p[..5] == p && p[..4] == p[..|p| - 1];
  }
}
