// The memctrl word the AT91 slow-clock code is handed: the memory
// controller type in bits 0..3, the controller's peripheral id in bits 8..15
// and the SAMA5D4 flag in bit 24 (mach/at91_ramc.h).
module Ramc {

  const MEMCTRL_MASK: bv32 := 0x0f
  const MEMCTRL_PID_MASK: bv32 := 0xff
  const MEMCTRL_PID_OFFSET: bv32 := 8
  const MEMCTRL_SAMA5D4_MASK: bv32 := 0x01
  const MEMCTRL_SAMA5D4_OFFSET: bv32 := 24
  const MEMCTRL_SAMA5D4_BIT: bv32 := 0x01

  /** The memory controller types. */
  const MEMCTRL_MC: bv32 := 0
  const MEMCTRL_SDRAMC: bv32 := 1
  const MEMCTRL_DDRSDR: bv32 := 2

  /** AT91_MEMCTRL_PID: the low byte of x, in bits 8..15. */
  function MemctrlPid(x: bv32): (r: bv32)
    ensures r & !0xff00 == 0
  {
    (x & MEMCTRL_PID_MASK) << MEMCTRL_PID_OFFSET
  }

  /** AT91_MEMCTRL_IS_SAMA5D4: the low bit of x, in bit 24. */
  function MemctrlIsSama5d4(x: bv32): (r: bv32)
    ensures r & !0x0100_0000 == 0
  {
    (x & MEMCTRL_SAMA5D4_MASK) << MEMCTRL_SAMA5D4_OFFSET
  }

  /** The word at91_pm_enter composes. */
  function Memctrl(memType: bv32, id: bv32, sama5d4: bv32): bv32
  {
    MemctrlPid(id) | memType | MemctrlIsSama5d4(sama5d4)
  }

  /** The type field of a memctrl word. */
  function MemctrlType(m: bv32): bv32
  {
    m & MEMCTRL_MASK
  }

  /** The peripheral id field of a memctrl word. */
  function MemctrlId(m: bv32): bv32
  {
    (m >> MEMCTRL_PID_OFFSET) & MEMCTRL_PID_MASK
  }

  /** The SAMA5D4 flag of a memctrl word. */
  function MemctrlSama5d4(m: bv32): bv32
  {
    (m >> MEMCTRL_SAMA5D4_OFFSET) & MEMCTRL_SAMA5D4_MASK
  }

  /** The three fields are disjoint: a composed word decodes back to its parts, cut to their field widths. */
  lemma MemctrlRoundTrip(memType: bv32, id: bv32, sama5d4: bv32)
    requires memType & !MEMCTRL_MASK == 0
    ensures var m := Memctrl(memType, id, sama5d4);
      MemctrlType(m) == memType && MemctrlId(m) == id & 0xff && MemctrlSama5d4(m) == sama5d4 & 1
  {
  }

  /** Without the SAMA5D4 flag, the word is PID(id) | type. */
  lemma MemctrlNoFlag(memType: bv32, id: bv32)
    ensures Memctrl(memType, id, 0) == MemctrlPid(id) | memType
  {
  }
}
