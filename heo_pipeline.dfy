// The two-slot buffer pipeline of the HEO overlay driver: which queued
// buffers the driver still holds (cur is being scanned out, next is queued
// behind it) and which it hands back to videobuf2, with which status.
module HeoPipeline {
  import opened Common

  /** A queued videobuf2 buffer: its identity and the DMA address of each of its planes. */
  datatype VideoBuffer = VideoBuffer(id: nat, planes: seq<int>)

  /**
   * at91sam9x5_video_bufinfo: a buffer together with the chroma plane numbers
   * and the plane sizes that were current when it was shown.
   */
  datatype BufInfo = BufInfo(vb: VideoBuffer, uPlane: int, vPlane: int, planeSize: seq<int>)

  predicate WellFormedInfo(b: BufInfo)
  {
    |b.planeSize| == 3 && 0 < |b.vb.planes| &&
    0 <= b.uPlane < 3 && b.uPlane < |b.vb.planes| && 0 <= b.vPlane < 3 && b.vPlane < |b.vb.planes| &&
    (forall k :: 0 <= k < |b.vb.planes| ==> IsU32(b.vb.planes[k])) &&
    (forall k :: 0 <= k < 3 ==> IsU32(b.planeSize[k]))
  }

  /**
   * Values the driver reads from the HEO registers. The status and address
   * registers are used as numbers, the interrupt status and mask as bit sets.
   */
  datatype HwRead = HwRead(chsr: int, addr: int, uaddr: int, vaddr: int, isr: bv32, imr: bv32)

  predicate WellFormedRead(hw: HwRead)
  {
    IsU32(hw.chsr) && IsU32(hw.addr) && IsU32(hw.uaddr) && IsU32(hw.vaddr)
  }

  /** The channel status bit HEOCHSR.CHSR is clear: the DMA channel has stopped. */
  predicate ChannelStopped(hw: HwRead)
  {
    hw.chsr % 2 == 0
  }

  /** __buf_in_use for one plane: the unsigned distance from the plane start to the DMA address register. */
  predicate PlaneInUse(heoaddr: int, paddr: int, size: int)
  {
    Wrap32(heoaddr - paddr) <= size
  }

  /** The address d bytes into a plane starting at paddr, as a 32-bit bus address. */
  function AddrAt(paddr: int, d: int): int
  {
    Wrap32(paddr + d)
  }

  /** The unsigned comparison means: the DMA address lies in [paddr, paddr + size], modulo 2^32. */
  lemma {:induction false} PlaneInUseMeaning(heoaddr: int, paddr: int, size: int)
    requires IsU32(heoaddr) && IsU32(paddr) && IsU32(size)
    ensures PlaneInUse(heoaddr, paddr, size) <==> exists d :: 0 <= d <= size && heoaddr == AddrAt(paddr, d)
  {
    if PlaneInUse(heoaddr, paddr, size) {
      InUseWitness(heoaddr, paddr);
    }
    if exists d :: 0 <= d <= size && heoaddr == AddrAt(paddr, d) {
      var d :| 0 <= d <= size && heoaddr == AddrAt(paddr, d);
      WitnessInUse(paddr, d);
    }
  }

  lemma InUseWitness(heoaddr: int, paddr: int)
    requires IsU32(heoaddr) && IsU32(paddr)
    ensures heoaddr == AddrAt(paddr, Wrap32(heoaddr - paddr))
  {
    WrapAdd(paddr, heoaddr - paddr);
    WrapIdem(paddr);
    WrapIdem(heoaddr);
    assert paddr + (heoaddr - paddr) == heoaddr;
  }

  lemma WitnessInUse(paddr: int, d: int)
    requires IsU32(paddr) && IsU32(d)
    ensures Wrap32(AddrAt(paddr, d) - paddr) == d
  {
    WrapSub(paddr + d, paddr);
    WrapIdem(paddr);
    WrapIdem(d);
    assert paddr + d - paddr == d;
  }

  /** buf_in_use: the DMA engine still reads the Y, U or V plane of the buffer. */
  predicate BufInUse(b: BufInfo, hw: HwRead)
    requires WellFormedInfo(b)
  {
    PlaneInUse(hw.addr, b.vb.planes[0], b.planeSize[0]) ||
    PlaneInUse(hw.uaddr, b.vb.planes[b.uPlane], b.planeSize[b.uPlane]) ||
    PlaneInUse(hw.vaddr, b.vb.planes[b.vPlane], b.planeSize[b.vPlane])
  }

  // ---------------------------------------------------------------------
  // The two slots

  datatype Pipeline = Pipeline(cur: Option<BufInfo>, next: Option<BufInfo>)

  /** vb2_buffer_done states used by the driver. */
  datatype Status = Done | Error

  datatype Completion = Completion(vb: VideoBuffer, status: Status)

  /** The outcome of one operation on the pipeline: the new slots and the buffers handed back, in order. */
  datatype Step = Step(pipe: Pipeline, completed: seq<Completion>)

  predicate WellFormedSlot(o: Option<BufInfo>)
  {
    o.Some? ==> WellFormedInfo(o.value)
  }

  predicate WellFormedPipe(p: Pipeline)
  {
    WellFormedSlot(p.cur) && WellFormedSlot(p.next)
  }

  function SlotBuffers(o: Option<BufInfo>): multiset<VideoBuffer>
  {
    if o.Some? then multiset{o.value.vb} else multiset{}
  }

  /** The buffers the driver owns. */
  function Held(p: Pipeline): multiset<VideoBuffer>
  {
    SlotBuffers(p.cur) + SlotBuffers(p.next)
  }

  /** The buffers handed back to videobuf2. */
  function Returned(cs: seq<Completion>): multiset<VideoBuffer>
  {
    if cs == [] then multiset{} else multiset{cs[0].vb} + Returned(cs[1..])
  }

  /** vb occupies one of the slots. */
  predicate InSlots(p: Pipeline, vb: VideoBuffer)
  {
    (p.cur.Some? && p.cur.value.vb == vb) || (p.next.Some? && p.next.value.vb == vb)
  }

  lemma InSlotsIsHeld(p: Pipeline, vb: VideoBuffer)
    ensures InSlots(p, vb) <==> vb in Held(p)
  {
  }

  /** No buffer occupies both slots. */
  predicate Distinct(p: Pipeline)
  {
    p.cur.Some? && p.next.Some? ==> p.cur.value.vb != p.next.value.vb
  }

  lemma ReturnedSingle(c: Completion)
    ensures Returned([c]) == multiset{c.vb}
  {
    assert [c][1..] == [];
  }

  lemma ReturnedSlot(o: Option<BufInfo>)
    ensures Returned(DoneIfHeld(o)) == SlotBuffers(o) && Returned(DropIfHeld(o)) == SlotBuffers(o)
  {
    if o.Some? {
      ReturnedSingle(Completion(o.value.vb, Done));
      ReturnedSingle(Completion(o.value.vb, Error));
    }
  }

  predicate AllDone(cs: seq<Completion>)
  {
    forall i :: 0 <= i < |cs| ==> cs[i].status == Done
  }

  function DoneIfHeld(o: Option<BufInfo>): seq<Completion>
  {
    if o.Some? then [Completion(o.value.vb, Done)] else []
  }

  /**
   * The first step of handle_irqstat: an empty cur slot takes over next.
   * Afterwards a filled next slot implies a filled cur slot.
   */
  function Promote(p: Pipeline): (q: Pipeline)
    ensures Held(q) == Held(p)
    ensures q.next.Some? ==> q.cur.Some?
    ensures WellFormedPipe(p) ==> WellFormedPipe(q)
    ensures Distinct(p) ==> Distinct(q)
  {
    if p.cur.None? then Pipeline(p.next, None) else p
  }

  /**
   * handle_irqstat's pipeline part. When the channel is idle and stopped, both
   * slots are handed back DONE. With both slots full, cur is handed back DONE
   * and next takes its place unless the hardware still runs and reads cur.
   */
  function IrqStep(p: Pipeline, hwIdle: bool, cfgBad: bool, hw: HwRead): Step
    requires WellFormedPipe(p)
  {
    var q := Promote(p);
    var flush := hwIdle && ChannelStopped(hw);
    var retire := q.cur.Some? && q.next.Some? && ((cfgBad && ChannelStopped(hw)) || !BufInUse(q.cur.value, hw));
    IrqSlots(q, flush, retire)
  }

  /**
   * What the interrupt step does: every buffer held before is still held or
   * handed back DONE; the slots stay well-formed and distinct and next is only
   * filled behind cur. Flushing empties both slots. Otherwise at most cur is
   * handed back, and only when the channel is stopped with a bad
   * configuration or the DMA no longer reads it; a running channel keeps a
   * buffer in cur as long as it held any.
   */
  lemma IrqStepMeaning(p: Pipeline, hwIdle: bool, cfgBad: bool, hw: HwRead)
    requires WellFormedPipe(p)
    ensures var s := IrqStep(p, hwIdle, cfgBad, hw);
      WellFormedPipe(s.pipe) && Held(p) == Held(s.pipe) + Returned(s.completed) &&
      (s.pipe.next.Some? ==> s.pipe.cur.Some?) && AllDone(s.completed)
    ensures var s := IrqStep(p, hwIdle, cfgBad, hw);
      hwIdle && ChannelStopped(hw) ==> s.pipe == Pipeline(None, None)
    ensures var s := IrqStep(p, hwIdle, cfgBad, hw);
      !(hwIdle && ChannelStopped(hw)) && s.completed != [] ==>
        s.completed == [Completion(Promote(p).cur.value.vb, Done)] &&
        ((cfgBad && ChannelStopped(hw)) || !BufInUse(Promote(p).cur.value, hw))
    ensures Distinct(p) ==> Distinct(IrqStep(p, hwIdle, cfgBad, hw).pipe)
    ensures var s := IrqStep(p, hwIdle, cfgBad, hw);
      !hwIdle ==> (s.pipe.cur.Some? <==> p.cur.Some? || p.next.Some?)
  {
    var q := Promote(p);
    var flush := hwIdle && ChannelStopped(hw);
    var retire := q.cur.Some? && q.next.Some? && ((cfgBad && ChannelStopped(hw)) || !BufInUse(q.cur.value, hw));
    IrqSlotsMeaning(q, flush, retire);
  }

  /** On a running channel handle_irqstat leaves a buffer in cur exactly when it held one before. */
  lemma IrqKeepsCur(p: Pipeline, hwIdle: bool, cfgBad: bool, hw: HwRead)
    requires WellFormedPipe(p) && !hwIdle
    ensures IrqStep(p, hwIdle, cfgBad, hw).pipe.cur.Some? <==> p.cur.Some? || p.next.Some?
  {
    IrqStepMeaning(p, hwIdle, cfgBad, hw);
  }

  /** handle_irqstat only lets buffers go: a buffer outside the slots stays outside. */
  lemma IrqKeepsOut(p: Pipeline, hwIdle: bool, cfgBad: bool, hw: HwRead, vb: VideoBuffer)
    requires WellFormedPipe(p) && !InSlots(p, vb)
    ensures !InSlots(IrqStep(p, hwIdle, cfgBad, hw).pipe, vb)
  {
    IrqStepMeaning(p, hwIdle, cfgBad, hw);
    InSlotsIsHeld(p, vb);
    InSlotsIsHeld(IrqStep(p, hwIdle, cfgBad, hw).pipe, vb);
  }

  /**
   * The slot changes of handle_irqstat once cur has been refilled: flush hands
   * back both slots; retire hands back cur and moves next up; a lone next
   * (which cannot occur after Promote) moves up.
   */
  function IrqSlots(q: Pipeline, flush: bool, retire: bool): Step
    requires retire ==> q.cur.Some? && q.next.Some?
  {
    if flush then FlushSlots(q)
    else if retire then Step(Pipeline(q.next, None), [Completion(q.cur.value.vb, Done)])
    else if q.cur.None? && q.next.Some? then Step(Pipeline(q.next, None), [])
    else Step(q, [])
  }

  lemma IrqSlotsMeaning(q: Pipeline, flush: bool, retire: bool)
    requires retire ==> q.cur.Some? && q.next.Some?
    ensures var s := IrqSlots(q, flush, retire);
      (WellFormedPipe(q) ==> WellFormedPipe(s.pipe)) && Held(q) == Held(s.pipe) + Returned(s.completed) &&
      ((q.next.Some? ==> q.cur.Some?) ==> (s.pipe.next.Some? ==> s.pipe.cur.Some?)) && AllDone(s.completed)
    ensures var s := IrqSlots(q, flush, retire);
      (flush ==> s.pipe == Pipeline(None, None)) &&
      (!flush && s.completed != [] ==> retire && s.completed == [Completion(q.cur.value.vb, Done)])
    ensures var s := IrqSlots(q, flush, retire);
      (Distinct(q) ==> Distinct(s.pipe)) && (!flush ==> (s.pipe.cur.Some? <==> q.cur.Some? || q.next.Some?))
  {
    if flush {
      FlushReturnsHeld(q);
    } else if retire {
      ReturnedSingle(Completion(q.cur.value.vb, Done));
    }
  }

  /** Both slots handed back DONE, cur first. */
  function FlushSlots(q: Pipeline): Step
  {
    Step(Pipeline(None, None), DoneIfHeld(q.cur) + DoneIfHeld(q.next))
  }

  lemma FlushReturnsHeld(q: Pipeline)
    ensures var cs := DoneIfHeld(q.cur) + DoneIfHeld(q.next);
      Returned(cs) == Held(q) && AllDone(cs) && |cs| <= 2
  {
    ReturnedConcat(DoneIfHeld(q.cur), DoneIfHeld(q.next));
    ReturnedSlot(q.cur);
    ReturnedSlot(q.next);
    var cs := DoneIfHeld(q.cur) + DoneIfHeld(q.next);
    forall i | 0 <= i < |cs|
      ensures cs[i].status == Done
    {
      if i < |DoneIfHeld(q.cur)| {
        assert cs[i] == DoneIfHeld(q.cur)[i];
      } else {
        assert cs[i] == DoneIfHeld(q.next)[i - |DoneIfHeld(q.cur)|];
      }
    }
  }

  /**
   * show_buf's pipeline part, after the hardware has been pointed at b. If cur
   * is still read by the DMA, cur stays and a waiting next is dropped with
   * ERROR; otherwise cur (if any) is handed back DONE and next moves up. Either
   * way b becomes next.
   */
  function ShowStep(p: Pipeline, b: BufInfo, hw: HwRead): Step
    requires WellFormedSlot(p.cur)
  {
    ShowSlots(p, b, p.cur.Some? && BufInUse(p.cur.value, hw))
  }

  /**
   * What showing b does: b joins the held buffers and nothing is lost; b
   * always becomes next; if the DMA still reads cur, cur stays and a waiting
   * next is handed back with ERROR, otherwise next moves up and cur is handed
   * back DONE. A buffer not already held keeps the slots distinct.
   */
  lemma ShowStepMeaning(p: Pipeline, b: BufInfo, hw: HwRead)
    requires WellFormedPipe(p) && WellFormedInfo(b)
    ensures var s := ShowStep(p, b, hw);
      WellFormedPipe(s.pipe) && Held(p) + multiset{b.vb} == Held(s.pipe) + Returned(s.completed) &&
      s.pipe.next == Some(b) && |s.completed| <= 1
    ensures var s := ShowStep(p, b, hw);
      p.cur.Some? && BufInUse(p.cur.value, hw) ==> s.pipe.cur == p.cur && s.completed == DropIfHeld(p.next)
    ensures var s := ShowStep(p, b, hw);
      !(p.cur.Some? && BufInUse(p.cur.value, hw)) ==> s.pipe.cur == p.next && s.completed == DoneIfHeld(p.cur)
    ensures b.vb !in Held(p) ==> Distinct(ShowStep(p, b, hw).pipe)
  {
    ShowSlotsMeaning(p, b, p.cur.Some? && BufInUse(p.cur.value, hw));
  }

  function ShowSlots(p: Pipeline, b: BufInfo, keepCur: bool): Step
  {
    if keepCur then Step(Pipeline(p.cur, Some(b)), DropIfHeld(p.next))
    else Step(Pipeline(p.next, Some(b)), DoneIfHeld(p.cur))
  }

  lemma ShowSlotsMeaning(p: Pipeline, b: BufInfo, keepCur: bool)
    ensures var s := ShowSlots(p, b, keepCur);
      (WellFormedPipe(p) && WellFormedInfo(b) ==> WellFormedPipe(s.pipe)) &&
      Held(p) + multiset{b.vb} == Held(s.pipe) + Returned(s.completed)
    ensures var s := ShowSlots(p, b, keepCur);
      s.pipe.next == Some(b) && |s.completed| <= 1 && (b.vb !in Held(p) ==> Distinct(s.pipe))
  {
    if keepCur {
      ReturnedSlot(p.next);
      Rotate(SlotBuffers(p.cur), SlotBuffers(p.next), multiset{b.vb});
    } else {
      ReturnedSlot(p.cur);
      Rotate(SlotBuffers(p.next), SlotBuffers(p.cur), multiset{b.vb});
    }
  }

  lemma Rotate<T>(a: multiset<T>, b: multiset<T>, c: multiset<T>)
    ensures a + b + c == a + c + b && b + a + c == a + c + b
  {
  }

  function DropIfHeld(o: Option<BufInfo>): seq<Completion>
  {
    if o.Some? then [Completion(o.value.vb, Error)] else []
  }

  /** buf_queue while the configuration is bad: the buffer is handed straight back DONE. */
  function BounceStep(p: Pipeline, b: BufInfo): Step
  {
    Step(p, [Completion(b.vb, Done)])
  }

  /** A bounced buffer is handed back at once and the slots do not change. */
  lemma BounceStepMeaning(p: Pipeline, b: BufInfo)
    ensures var s := BounceStep(p, b);
      Held(p) + multiset{b.vb} == Held(s.pipe) + Returned(s.completed) && s.pipe == p
  {
    ReturnedSingle(Completion(b.vb, Done));
  }

  // ---------------------------------------------------------------------
  // Runs of operations

  /** The pipeline operations the entry points of the driver perform. */
  datatype Event =
    | Show(b: BufInfo, hw: HwRead)
    | Irq(hwIdle: bool, cfgBad: bool, hw: HwRead)
    | Bounce(b: BufInfo)
    | Restart

  predicate WellFormedEvent(e: Event)
  {
    e.Show? ==> WellFormedInfo(e.b)
  }

  /**
   * One event. Restart is the recovery from a bad configuration: the DMA is
   * restarted on the buffer already held as cur, and the slots stay as they are.
   */
  function Apply(p: Pipeline, e: Event): (s: Step)
    requires WellFormedPipe(p) && WellFormedEvent(e)
    ensures WellFormedPipe(s.pipe)
  {
    match e
    case Show(b, hw) => ShowStepMeaning(p, b, hw); ShowStep(p, b, hw)
    case Irq(idle, bad, hw) => IrqStepMeaning(p, idle, bad, hw); IrqStep(p, idle, bad, hw)
    case Bounce(b) => BounceStep(p, b)
    case Restart => Step(p, [])
  }

  /** Each event keeps the balance: what was held, plus what it queues, is now held or handed back. */
  lemma ApplyConserves(p: Pipeline, e: Event)
    requires WellFormedPipe(p) && WellFormedEvent(e)
    ensures Held(p) + EventBuffers(e) == Held(Apply(p, e).pipe) + Returned(Apply(p, e).completed)
  {
    match e
    case Show(b, hw) => ShowStepMeaning(p, b, hw);
    case Irq(idle, bad, hw) => IrqStepMeaning(p, idle, bad, hw);
    case Bounce(b) => BounceStepMeaning(p, b);
    case Restart =>
  }

  /** The buffer an event queues, if any. */
  function EventBuffers(e: Event): multiset<VideoBuffer>
  {
    if e.Show? || e.Bounce? then multiset{e.b.vb} else multiset{}
  }

  function Submitted(evs: seq<Event>): multiset<VideoBuffer>
  {
    if evs == [] then multiset{} else Submitted(evs[..|evs| - 1]) + EventBuffers(evs[|evs| - 1])
  }

  /** The state after a run of events and every completion made on the way, in order. */
  function Run(p: Pipeline, evs: seq<Event>): (s: Step)
    requires WellFormedPipe(p) && forall k :: 0 <= k < |evs| ==> WellFormedEvent(evs[k])
    ensures WellFormedPipe(s.pipe)
  {
    if evs == [] then Step(p, [])
    else
      var before := Run(p, evs[..|evs| - 1]);
      var last := Apply(before.pipe, evs[|evs| - 1]);
      Step(last.pipe, before.completed + last.completed)
  }

  lemma {:induction false} ReturnedConcat(a: seq<Completion>, b: seq<Completion>)
    ensures Returned(a + b) == Returned(a) + Returned(b)
  {
    if a != [] {
      assert (a + b)[1..] == a[1..] + b;
      ReturnedConcat(a[1..], b);
    } else {
      assert a + b == b;
    }
  }

  /**
   * Every buffer ever given to the driver is, at any time, either still held
   * or handed back, exactly once: a buffer is never handed back more often than
   * it was queued, and never both held and handed back for the same queueing.
   */
  lemma {:induction false} RunConserves(p: Pipeline, evs: seq<Event>)
    requires WellFormedPipe(p) && forall k :: 0 <= k < |evs| ==> WellFormedEvent(evs[k])
    ensures Held(p) + Submitted(evs) == Held(Run(p, evs).pipe) + Returned(Run(p, evs).completed)
  {
    if evs != [] {
      var init := evs[..|evs| - 1];
      RunConserves(p, init);
      var before := Run(p, init);
      var last := Apply(before.pipe, evs[|evs| - 1]);
      ApplyConserves(before.pipe, evs[|evs| - 1]);
      ReturnedConcat(before.completed, last.completed);
      assert Run(p, evs) == Step(last.pipe, before.completed + last.completed);
      assert Submitted(evs) == Submitted(init) + EventBuffers(evs[|evs| - 1]);
      Rearrange(Held(p), Submitted(init), EventBuffers(evs[|evs| - 1]), Held(before.pipe),
                Returned(before.completed), Held(last.pipe), Returned(last.completed));
    }
  }

  lemma Rearrange<T>(h0: multiset<T>, sub: multiset<T>, e: multiset<T>, h1: multiset<T>,
                     r1: multiset<T>, h2: multiset<T>, r2: multiset<T>)
    requires h0 + sub == h1 + r1 && h1 + e == h2 + r2
    ensures h0 + (sub + e) == h2 + (r1 + r2)
  {
    forall x
      ensures (h0 + (sub + e))[x] == (h2 + (r1 + r2))[x]
    {
      assert (h0 + sub)[x] == (h1 + r1)[x];
      assert (h1 + e)[x] == (h2 + r2)[x];
    }
  }

  /** Videobuf2 only queues a buffer the driver does not hold; every event of the run respects that. */
  predicate OwnershipRespected(p: Pipeline, evs: seq<Event>)
    requires WellFormedPipe(p) && forall k :: 0 <= k < |evs| ==> WellFormedEvent(evs[k])
  {
    evs == [] ||
    (OwnershipRespected(p, evs[..|evs| - 1]) &&
     Fresh(Run(p, evs[..|evs| - 1]).pipe, evs[|evs| - 1]))
  }

  /** The event does not queue a buffer the pipeline holds. */
  predicate Fresh(p: Pipeline, e: Event)
  {
    (e.Show? || e.Bounce?) ==> e.b.vb !in Held(p)
  }

  /**
   * As long as only buffers the driver does not hold are queued, no buffer
   * ever occupies both slots, so at most two distinct buffers are held.
   */
  lemma {:induction false} RunKeepsDistinct(p: Pipeline, evs: seq<Event>)
    requires WellFormedPipe(p) && forall k :: 0 <= k < |evs| ==> WellFormedEvent(evs[k])
    requires Distinct(p) && OwnershipRespected(p, evs)
    ensures Distinct(Run(p, evs).pipe)
  {
    if evs != [] {
      var init := evs[..|evs| - 1];
      RunKeepsDistinct(p, init);
      ApplyKeepsDistinct(Run(p, init).pipe, evs[|evs| - 1]);
    }
  }

  /** One event keeps the slots distinct when it does not queue a buffer already held. */
  lemma ApplyKeepsDistinct(p: Pipeline, e: Event)
    requires WellFormedPipe(p) && WellFormedEvent(e) && Distinct(p) && Fresh(p, e)
    ensures Distinct(Apply(p, e).pipe)
  {
    match e
    case Show(b, hw) => ShowStepMeaning(p, b, hw);
    case Irq(idle, bad, hw) => IrqStepMeaning(p, idle, bad, hw);
    case Bounce(b) =>
    case Restart =>
  }

  /**
   * The recovery path of update_config as written passes the buffer held as
   * cur to show_buf again. When the DMA address still points into it and no
   * next buffer waits, the same buffer ends up in both slots, and it will be
   * handed back twice.
   */
  lemma ResubmittingCurHoldsItTwice(p: Pipeline, hw: HwRead)
    requires WellFormedPipe(p) && p.cur.Some? && p.next.None? && BufInUse(p.cur.value, hw)
    ensures var s := ShowStep(p, p.cur.value, hw);
      !Distinct(s.pipe) && Held(s.pipe)[p.cur.value.vb] == 2
  {
    ShowStepMeaning(p, p.cur.value, hw);
  }
}
