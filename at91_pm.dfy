// AT91 power management (arch/arm/mach-at91/pm.c): the reset reason shown
// at boot, the suspend states offered, the target_state life cycle of a
// suspend, the clock checks made before slow-clock mode, and the order of
// the steps at91_pm_enter takes. PMC, RSTC and SHDWC register reads are
// inputs; the steps taken are an append-only log.
module AtPm {
  import opened Common
  import opened Ramc

  /** suspend_state_t. */
  datatype SuspendState = On | Standby | Mem | OtherState(code: int)

  /** The chips cpu_is_*() tells apart here. */
  datatype Cpu = RM9200 | SAM9260 | SAM9261 | SAM9263 | SAM9G20 | SAM9G10 | SAM9G45 | SAM9X5 | SAM9N12 |
                 SAMA5D3 | SAMA5D4 | OtherCpu

  // ---------------------------------------------------------------------
  // show_reset_status

  /** The RSTTYP field of RSTC_SR. */
  datatype ResetType = General | Wakeup | Watchdog | Software | User | OtherReset(code: nat)

  /** The bits of SHDW_SR the decoder looks at; others covers every remaining bit. */
  datatype WakeStatus = WakeStatus(wakeup0: bool, rttwk: bool, rtcwk: bool, others: bool)

  predicate WakeZero(w: WakeStatus)
  {
    !w.wakeup0 && !w.rttwk && !w.rtcwk && !w.others
  }

  /**
   * show_reset_status: the two words of "AT91: Starting after %s %s", or
   * nothing when either controller is not mapped.
   */
  function ResetStatus(shdwcMapped: bool, rstcMapped: bool, t: ResetType, w: WakeStatus): Option<(string, string)>
  {
    if !shdwcMapped || !rstcMapped then None
    else Some(match t
      case General => ("general", "reset")
      case Wakeup =>
        if w.wakeup0 then ("wakeup", "signal")
        else if w.rttwk then ("rtt", "wakeup")
        else if w.rtcwk then ("rtc", "wakeup")
        else if WakeZero(w) then ("power-restored", "wakeup")
        else ("unknown", "wakeup")
      case Watchdog => ("watchdog", "reset")
      case Software => ("software", "reset")
      case User => ("user", "reset")
      case OtherReset(_) => ("unknown", "reset"))
  }

  /**
   * The message names a reset exactly for the reset types other than a
   * wake-up; a wake-up message names the wake-up source, a wake-up signal
   * taking precedence over the RTT, the RTT over the RTC, and "power-restored"
   * only when no status bit is set; two different wake-up sources are never
   * reported alike, nor a wake-up like a reset.
   */
  lemma ResetStatusMeaning(t: ResetType, w: WakeStatus)
    ensures var m := ResetStatus(true, true, t, w).value;
      (m.1 == "reset" <==> !t.Wakeup?) && (t.Wakeup? ==> m.1 in {"signal", "wakeup"})
    ensures t.Wakeup? ==> var m := ResetStatus(true, true, t, w).value;
      (m == ("wakeup", "signal") <==> w.wakeup0) &&
      (m.0 == "rtt" <==> !w.wakeup0 && w.rttwk) &&
      (m.0 == "rtc" <==> !w.wakeup0 && !w.rttwk && w.rtcwk) &&
      (m.0 == "power-restored" <==> WakeZero(w))
    ensures forall s: bool, r: bool :: ResetStatus(s, r, t, w).None? <==> !s || !r
  {
  }

  /** Distinct known reset causes give distinct messages. */
  lemma {:induction false} ResetStatusDistinguishes(t1: ResetType, w1: WakeStatus, t2: ResetType, w2: WakeStatus)
    requires !t1.OtherReset? && !t2.OtherReset? && t1 != t2
    requires t1.Wakeup? ==> w1.wakeup0
    requires t2.Wakeup? ==> w2.wakeup0
    ensures ResetStatus(true, true, t1, w1) != ResetStatus(true, true, t2, w2)
  {
    var m1, m2 := ResetStatus(true, true, t1, w1).value, ResetStatus(true, true, t2, w2).value;
    assert m1.0 != m2.0 by {
      assert m1.0 == ReasonWord(t1) && m2.0 == ReasonWord(t2);
    }
  }

  /** The first word for a known reset cause other than a wake-up source. */
  function ReasonWord(t: ResetType): string
  {
    match t
    case General => "general"
    case Wakeup => "wakeup"
    case Watchdog => "watchdog"
    case Software => "software"
    case User => "user"
    case OtherReset(_) => "unknown"
  }

  // ---------------------------------------------------------------------
  // valid_state, the memory controller, verify_clocks

  /** at91_pm_valid_state. */
  function ValidState(state: SuspendState): (r: int)
    ensures r == 0 || r == 1
    ensures r == 1 <==> state in {On, Standby, Mem}
  {
    match state
    case On => 1
    case Standby => 1
    case Mem => 1
    case OtherState(_) => 0
  }

  /** at91_get_mem_type. */
  function MemType(cpu: Cpu): (r: bv32)
    ensures r & !MEMCTRL_MASK == 0
  {
    if cpu == RM9200 then MEMCTRL_MC
    else if cpu in {SAM9G45, SAM9X5, SAM9N12} then MEMCTRL_DDRSDR
    else if cpu in {SAMA5D3, SAMA5D4} then MEMCTRL_DDRSDR
    else MEMCTRL_SDRAMC
  }

  /** SAMA5D4_ID_MPDDRC, the peripheral id of the SAMA5D4 DDR controller. */
  const SAMA5D4_ID_MPDDRC: bv32 := 16

  /** at91_get_memc_id; the SAMA5D3 id comes from a chip header that is not part of this model. */
  function MemcId(cpu: Cpu, sama5d3Id: bv32): bv32
  {
    if cpu == SAMA5D3 then sama5d3Id
    else if cpu == SAMA5D4 then SAMA5D4_ID_MPDDRC
    else 0
  }

  /** The memctrl word at91_pm_enter hands to the slow-clock code. */
  function EnterMemctrl(cpu: Cpu, sama5d3Id: bv32): bv32
  {
    var m := MemctrlPid(MemcId(cpu, sama5d3Id)) | MemType(cpu);
    if cpu == SAMA5D4 then m | MemctrlIsSama5d4(MEMCTRL_SAMA5D4_BIT) else m
  }

  /** The RM9200 alone has an MC, the DDR chips a DDRSDR controller; only SAMA5D3/D4 name their controller. */
  lemma MemTypeMeaning(cpu: Cpu, sama5d3Id: bv32)
    ensures MemType(cpu) == MEMCTRL_MC <==> cpu == RM9200
    ensures MemType(cpu) == MEMCTRL_DDRSDR <==> cpu in {SAM9G45, SAM9X5, SAM9N12, SAMA5D3, SAMA5D4}
    ensures MemType(cpu) == MEMCTRL_SDRAMC <==> !(cpu in {RM9200, SAM9G45, SAM9X5, SAM9N12, SAMA5D3, SAMA5D4})
    ensures MemcId(cpu, sama5d3Id) != 0 ==> cpu in {SAMA5D3, SAMA5D4}
  {
  }

  /** at91_pm_enter's memctrl word, as Memctrl of its three parts. */
  lemma EnterMemctrlParts(cpu: Cpu, sama5d3Id: bv32)
    ensures cpu == SAMA5D4 ==> EnterMemctrl(cpu, sama5d3Id) == Memctrl(MemType(cpu), MemcId(cpu, sama5d3Id), 1)
    ensures cpu != SAMA5D4 ==> EnterMemctrl(cpu, sama5d3Id) == Memctrl(MemType(cpu), MemcId(cpu, sama5d3Id), 0)
  {
    var t, i := MemType(cpu), MemcId(cpu, sama5d3Id);
    MemctrlNoFlag(t, i);
  }

  /**
   * The slow-clock code learns the controller type of the chip, the low
   * byte of the controller's id, and the SAMA5D4 flag exactly on SAMA5D4.
   */
  lemma EnterMemctrlDecodes(cpu: Cpu, sama5d3Id: bv32)
    ensures var m := EnterMemctrl(cpu, sama5d3Id);
      MemctrlType(m) == MemType(cpu) &&
      MemctrlId(m) == MemcId(cpu, sama5d3Id) & 0xff &&
      (MemctrlSama5d4(m) == 1 <==> cpu == SAMA5D4)
  {
    EnterMemctrlParts(cpu, sama5d3Id);
    if cpu == SAMA5D4 {
      MemctrlRoundTrip(MemType(cpu), MemcId(cpu, sama5d3Id), 1);
    } else {
      MemctrlRoundTrip(MemType(cpu), MemcId(cpu, sama5d3Id), 0);
    }
  }

  /** What the clock check reads from the PMC: the USB clocks of the chip and the four programmable clocks. */
  datatype ClockRead = ClockRead(usbActive: bool, pckEnabled: seq<bool>, pckSlow: seq<bool>)

  predicate WellFormedClockRead(c: ClockRead)
  {
    |c.pckEnabled| == 4 && |c.pckSlow| == 4
  }

  /** The chips whose USB host and device clocks must be off. */
  predicate ChecksUsb(cpu: Cpu)
  {
    cpu in {RM9200, SAM9260, SAM9261, SAM9263, SAM9G20, SAM9G10}
  }

  /** Slow-clock mode is safe: no USB clock the check covers is on, and each enabled PCKi runs from the slow clock. */
  predicate ClocksSafe(cpu: Cpu, c: ClockRead)
    requires WellFormedClockRead(c)
  {
    !(ChecksUsb(cpu) && c.usbActive) && forall i :: 0 <= i < 4 ==> c.pckEnabled[i] ==> c.pckSlow[i]
  }

  /** at91_pm_verify_clocks. */
  method VerifyClocks(cpu: Cpu, c: ClockRead) returns (ok: bool)
    requires WellFormedClockRead(c)
    ensures ok <==> ClocksSafe(cpu, c)
  {
    if ChecksUsb(cpu) && c.usbActive {
      return false;
    }
    var i := 0;
    while i < 4
      invariant 0 <= i <= 4
      invariant forall k :: 0 <= k < i ==> c.pckEnabled[k] ==> c.pckSlow[k]
    {
      if c.pckEnabled[i] && !c.pckSlow[i] {
        return false;
      }
      i := i + 1;
    }
    return true;
  }

  // ---------------------------------------------------------------------
  // begin / enter / end

  /** What at91_pm_enter reads from the PMC: the clocks to check and the PLLB and UTMI PLL state. */
  datatype PmcRead = PmcRead(clocks: ClockRead, lockB: bool, pllbr: bv32, lockU: bool, uckr: bv32)

  /** The steps at91_pm_enter takes, in order. */
  datatype Step =
    | GpioSuspend(pinctrl: bool)
    | IrqSuspend
    | PllbOff
    | UtmiOff
    | SlowClock(memctrl: bv32)
    | PllbOn(pllbr: bv32)
    | UtmiOn(uckr: bv32)
    | CpuStandby(cpu: Cpu)
    | CpuIdle
    | IrqResume
    | GpioResume(pinctrl: bool)

  /**
   * The suspend-to-RAM part of at91_pm_enter with slow-clock support: check
   * the clocks, stop the locked PLLs, run the slow-clock code when it is in
   * SRAM, then restart exactly the PLLs that were running with their saved
   * settings.
   */
  function SlowClockSteps(cpu: Cpu, sama5d3Id: bv32, sram: bool, hw: PmcRead): seq<Step>
    requires WellFormedClockRead(hw.clocks)
  {
    if !ClocksSafe(cpu, hw.clocks) then []
    else
      (if hw.lockB then [PllbOff] else []) + (if hw.lockU then [UtmiOff] else []) +
      (if sram then [SlowClock(EnterMemctrl(cpu, sama5d3Id))] else []) +
      (if hw.lockB then [PllbOn(hw.pllbr)] else []) + (if hw.lockU then [UtmiOn(hw.uckr)] else [])
  }

  /** The steps at91_pm_enter takes between suspending and resuming interrupts and GPIOs. */
  function StateSteps(cpu: Cpu, sama5d3Id: bv32, slowClock: bool, sram: bool, state: SuspendState, hw: PmcRead): seq<Step>
    requires WellFormedClockRead(hw.clocks)
  {
    match state
    case Mem => if slowClock then SlowClockSteps(cpu, sama5d3Id, sram, hw) else [CpuStandby(cpu)]
    case Standby => [CpuStandby(cpu)]
    case On => [CpuIdle]
    case OtherState(_) => []
  }

  /** at91_pm_enter, from the GPIO suspend to the GPIO resume. */
  function EnterSteps(cpu: Cpu, sama5d3Id: bv32, slowClock: bool, sram: bool, pinctrl: bool, state: SuspendState, hw: PmcRead): seq<Step>
    requires WellFormedClockRead(hw.clocks)
  {
    [GpioSuspend(pinctrl), IrqSuspend] + StateSteps(cpu, sama5d3Id, slowClock, sram, state, hw) +
    [IrqResume, GpioResume(pinctrl)]
  }

  /** The five possible suspend-to-RAM steps, each present or not. */
  lemma {:induction false} SlowClockStepsSplit(cpu: Cpu, sama5d3Id: bv32, sram: bool, hw: PmcRead, x: Step)
    requires WellFormedClockRead(hw.clocks) && ClocksSafe(cpu, hw.clocks)
    ensures x in SlowClockSteps(cpu, sama5d3Id, sram, hw) <==>
      (hw.lockB && (x == PllbOff || x == PllbOn(hw.pllbr))) || (hw.lockU && (x == UtmiOff || x == UtmiOn(hw.uckr))) ||
      (sram && x == SlowClock(EnterMemctrl(cpu, sama5d3Id)))
  {
    var a, b := if hw.lockB then [PllbOff] else [], if hw.lockU then [UtmiOff] else [];
    var c := if sram then [SlowClock(EnterMemctrl(cpu, sama5d3Id))] else [];
    var d, e := if hw.lockB then [PllbOn(hw.pllbr)] else [], if hw.lockU then [UtmiOn(hw.uckr)] else [];
    assert SlowClockSteps(cpu, sama5d3Id, sram, hw) == a + b + c + d + e;
  }

  /**
   * The suspend-to-RAM steps: the slow-clock code runs, handed the chip's
   * memctrl word, only when the clocks check out and the code is in SRAM; a
   * PLL is stopped, and restarted with the register value saved before,
   * exactly when it was locked before a successful clock check.
   */
  lemma SlowClockStepsMeaning(cpu: Cpu, sama5d3Id: bv32, sram: bool, hw: PmcRead)
    requires WellFormedClockRead(hw.clocks)
    ensures var s := SlowClockSteps(cpu, sama5d3Id, sram, hw); var ok := ClocksSafe(cpu, hw.clocks);
      (forall m :: SlowClock(m) in s <==> ok && sram && m == EnterMemctrl(cpu, sama5d3Id)) &&
      (forall v :: PllbOn(v) in s <==> ok && hw.lockB && v == hw.pllbr) &&
      (forall v :: UtmiOn(v) in s <==> ok && hw.lockU && v == hw.uckr) &&
      (PllbOff in s <==> ok && hw.lockB) && (UtmiOff in s <==> ok && hw.lockU)
  {
    var s := SlowClockSteps(cpu, sama5d3Id, sram, hw);
    if ClocksSafe(cpu, hw.clocks) {
      forall m ensures SlowClock(m) in s <==> sram && m == EnterMemctrl(cpu, sama5d3Id) {
        SlowClockStepsSplit(cpu, sama5d3Id, sram, hw, SlowClock(m));
      }
      forall v ensures PllbOn(v) in s <==> hw.lockB && v == hw.pllbr {
        SlowClockStepsSplit(cpu, sama5d3Id, sram, hw, PllbOn(v));
      }
      forall v ensures UtmiOn(v) in s <==> hw.lockU && v == hw.uckr {
        SlowClockStepsSplit(cpu, sama5d3Id, sram, hw, UtmiOn(v));
      }
      SlowClockStepsSplit(cpu, sama5d3Id, sram, hw, PllbOff);
      SlowClockStepsSplit(cpu, sama5d3Id, sram, hw, UtmiOff);
    }
  }

  /**
   * Every path through at91_pm_enter, the failed clock check and the bogus
   * state included, suspends GPIOs and interrupts first and resumes them
   * last; in between, suspend-to-RAM takes the slow-clock steps only with
   * slow-clock support and otherwise falls through to the standby of the
   * chip, standby waits in the chip's standby, and PM_SUSPEND_ON idles.
   */
  lemma {:induction false} EnterStepsMeaning(cpu: Cpu, sama5d3Id: bv32, slowClock: bool, sram: bool, pinctrl: bool, state: SuspendState, hw: PmcRead)
    requires WellFormedClockRead(hw.clocks)
    ensures var s := EnterSteps(cpu, sama5d3Id, slowClock, sram, pinctrl, state, hw);
      |s| >= 4 && s[..2] == [GpioSuspend(pinctrl), IrqSuspend] && s[|s| - 2..] == [IrqResume, GpioResume(pinctrl)]
    ensures var s := EnterSteps(cpu, sama5d3Id, slowClock, sram, pinctrl, state, hw);
      s[2..|s| - 2] == if state == Mem && slowClock then SlowClockSteps(cpu, sama5d3Id, sram, hw) else
        if state == Mem || state == Standby then [CpuStandby(cpu)] else if state == On then [CpuIdle] else []
  {
    var m := StateSteps(cpu, sama5d3Id, slowClock, sram, state, hw);
    var s := EnterSteps(cpu, sama5d3Id, slowClock, sram, pinctrl, state, hw);
    assert s == [GpioSuspend(pinctrl), IrqSuspend] + m + [IrqResume, GpioResume(pinctrl)];
    assert s[2..|s| - 2] == m;
  }

  /** The suspend target (target_state) and the steps taken so far. */
  class Pm {
    var target: SuspendState
    var steps: seq<Step>
    const cpu: Cpu
    /** SAMA5D3_ID_MPDDRC. */
    const sama5d3Id: bv32
    /** CONFIG_AT91_SLOW_CLOCK. */
    const slowClock: bool
    /** The slow-clock code has been copied to SRAM (sram_pm_suspend). */
    const sram: bool
    /** of_have_populated_dt(): pinctrl rather than the legacy GPIO code. */
    const pinctrl: bool

    /** at91_pm_init: the target starts zero-initialised, that is PM_SUSPEND_ON; the SRAM copy exists with slow-clock support. */
    constructor(cpu: Cpu, sama5d3Id: bv32, slowClock: bool, pinctrl: bool)
      ensures target == On && steps == []
      ensures this.cpu == cpu && this.sama5d3Id == sama5d3Id && this.slowClock == slowClock && this.pinctrl == pinctrl
      ensures sram == slowClock
    {
      this.cpu := cpu;
      this.sama5d3Id := sama5d3Id;
      this.slowClock := slowClock;
      this.sram := slowClock;
      this.pinctrl := pinctrl;
      target := On;
      steps := [];
    }

    /** at91_pm_begin. */
    method Begin(state: SuspendState) returns (r: int)
      modifies this`target
      ensures target == state && r == 0
    {
      target := state;
      r := 0;
    }

    /** at91_suspend_entering_slow_clock. */
    function EnteringSlowClock(): (r: bool)
      reads this
      ensures r <==> target == Mem
    {
      target == Mem
    }

    /** at91_pm_enter. */
    method Enter(state: SuspendState, hw: PmcRead) returns (r: int)
      requires WellFormedClockRead(hw.clocks)
      modifies this`target, this`steps
      ensures steps == old(steps) + EnterSteps(cpu, sama5d3Id, slowClock, sram, pinctrl, state, hw)
      ensures target == On && r == 0
    {
      var log := [GpioSuspend(pinctrl), IrqSuspend];
      var mid: seq<Step> := [];
      match state {
        case Mem =>
          if slowClock {
            var ok := VerifyClocks(cpu, hw.clocks);
            if ok {
              var memctrl := MemctrlPid(MemcId(cpu, sama5d3Id)) | MemType(cpu);
              if cpu == SAMA5D4 {
                memctrl := memctrl | MemctrlIsSama5d4(MEMCTRL_SAMA5D4_BIT);
              }
              mid := SlowClockRun(memctrl, hw);
            }
          } else {
            mid := [CpuStandby(cpu)];
          }
        case Standby =>
          mid := [CpuStandby(cpu)];
        case On =>
          mid := [CpuIdle];
        case OtherState(_) =>
      }
      target := On;
      steps := steps + (log + mid + [IrqResume, GpioResume(pinctrl)]);
      r := 0;
    }

    /** The PLL save, slow-clock run and PLL restore of a verified suspend-to-RAM. */
    method SlowClockRun(memctrl: bv32, hw: PmcRead) returns (s: seq<Step>)
      ensures s == (if hw.lockB then [PllbOff] else []) + (if hw.lockU then [UtmiOff] else []) +
        (if sram then [SlowClock(memctrl)] else []) +
        (if hw.lockB then [PllbOn(hw.pllbr)] else []) + (if hw.lockU then [UtmiOn(hw.uckr)] else [])
    {
      var pllbr: bv32, uckr: bv32 := 0, 0;
      s := [];
      var pllbEnabled := hw.lockB;
      if pllbEnabled {
        pllbr := hw.pllbr;
        s := s + [PllbOff];
      }
      var upllEnabled := hw.lockU;
      if upllEnabled {
        uckr := hw.uckr;
        s := s + [UtmiOff];
      }
      if sram {
        s := s + [SlowClock(memctrl)];
      }
      if pllbEnabled {
        s := s + [PllbOn(pllbr)];
      }
      if upllEnabled {
        s := s + [UtmiOn(uckr)];
      }
    }

    /** at91_pm_end. */
    method End()
      modifies this`target
      ensures target == On
    {
      target := On;
    }
  }
}
