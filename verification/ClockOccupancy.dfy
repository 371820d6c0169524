// The occupancy limit of the clock table: an insertion that would exceed it has to evict
// an entry first, so that the table never holds more entries than the limit allows.
module ClockOccupancy {
  import opened Probing
  import opened Sums
  import opened ClockTable
  import opened ClockLedger
  import opened ClockInvariant
  import opened ClockTheorems

  // A place that the thread has taken beyond the limit: it will evict an entry for it, or
  // give the place back.
  function Surplus(pc: Pc): int {
    match pc
    case Charge(c, _) => If(!c.ChOccupy? && c.needOcc, 1)
    case Evict(ev, sw) => If(sw.needOcc && (ev.EvSettle? ==> sw.freedCount == 0), 1)
    case Undo(un, _) => If(un.UnOccupancy? && !un.why.NotInserted?, 1)
    case _ => 0
  }

  // Standalone entries take no place, and without the strict limit no insertion goes on
  // unless it has evicted what it had to.
  predicate SurplusOk(pc: Pc) {
    match pc
    case Charge(c, ins) => ins.alone ==> c.ChOccupy? || !c.needOcc
    case Evict(ev, sw) =>
      && (sw.ins.alone ==> !sw.needOcc)
      && (ev.EvSettle? && !sw.strict ==> !(sw.needOcc && sw.freedCount == 0))
    case _ => true
  }

  ghost function SurplusOf(): Pc -> int { pc => Surplus(pc) }

  ghost predicate WithinLimit(cfg: Config, st: State) {
    && st.sh.occupancy - ThreadSum(SurplusOf(), st.threads) <= cfg.occupancyLimit
    && forall t :: 0 <= t < |st.threads| ==> SurplusOk(st.threads[t])
  }

  // One step: places beyond the limit are surplus.
  predicate Spared(cfg: Config, sh: Shared, pc: Pc, sh': Shared, pc': Pc) {
    && SurplusOk(pc')
    && (sh'.occupancy - sh.occupancy <= Surplus(pc') - Surplus(pc) || sh'.occupancy <= cfg.occupancyLimit)
  }

  lemma SparedCharge(cfg: Config, sh: Shared, c: ChargeAt, ins: Ins, spurious: bool)
    requires Shape(cfg, sh) && SurplusOk(Charge(c, ins)) && (ins.alone ==> !c.ChOccupy?)
    ensures var (sh', pc') := NextCharge(cfg, sh, c, ins, spurious); Spared(cfg, sh, Charge(c, ins), sh', pc')
  {
    hide U, NewUsage;
  }

  lemma SparedEvict(cfg: Config, sh: Shared, ev: EvictAt, sw: Sweep)
    requires Shape(cfg, sh) && SurplusOk(Evict(ev, sw)) && SweepOk(sw)
    ensures var (sh', pc') := NextEvict(cfg, sh, ev, sw); Spared(cfg, sh, Evict(ev, sw), sh', pc')
  {
    hide Probe, ClockSlot, Pow2, EffortExceeded, U;
  }

  lemma SparedOther(cfg: Config, sh: Shared, pc: Pc, ch: Choice)
    requires Shape(cfg, sh) && InRange(cfg, pc) && SurplusOk(pc) && !pc.Charge? && !pc.Evict?
    ensures var (sh', pc') := Next(cfg, sh, pc, ch); Spared(cfg, sh, pc, sh', pc')
  {
    hide Probe, Pow2, U, Refcount, NextCharge, NextEvict;
  }

  lemma SparedStep(cfg: Config, sh: Shared, pc: Pc, ch: Choice)
    requires Shape(cfg, sh) && Local(cfg, pc) && SurplusOk(pc)
    ensures var (sh', pc') := Next(cfg, sh, pc, ch); Spared(cfg, sh, pc, sh', pc')
  {
    hide NextLookup, NextCharge, NextEvict, NextInsert, NextUndo, NextErase, NextRemove, NextRelease, NextDrop, Begin;
    hide Spared, SurplusOk;
    if pc.Charge? { SparedCharge(cfg, sh, pc.ch, pc.ins, ch.Go? && ch.spurious); }
    else if pc.Evict? { SparedEvict(cfg, sh, pc.ev, pc.sw); }
    else { SparedOther(cfg, sh, pc, ch); }
  }

  lemma WithinLimitStep(cfg: Config, st: State, t: nat, ch: Choice)
    requires Inv(cfg, st) && WithinLimit(cfg, st) && t < |st.threads|
    ensures WithinLimit(cfg, Step(cfg, st, t, ch))
  {
    hide Next, Local, Pinned, Displacements, Protocol, Usage, Occupancy, SurplusOk, Surplus;
    var pc := st.threads[t];
    var (sh', pc') := Next(cfg, st.sh, pc, ch);
    assert Local(cfg, pc);
    SparedStep(cfg, st.sh, pc, ch);
    ThreadSumStep(SurplusOf(), st.threads, t, pc');
    SurplusNonNegative(st.threads[t := pc']);
  }

  lemma SurplusNonNegative(threads: seq<Pc>)
    ensures ThreadSum(SurplusOf(), threads) >= 0
  {
    SumNonNegative(Accounts(SurplusOf(), threads));
  }

  lemma {:induction false} RunWithinLimit(cfg: Config, run: seq<State>, sched: seq<(nat, Choice)>, k: nat)
    requires IsRun(cfg, run, sched) && Init(cfg, run[0]) && k < |run|
    ensures WithinLimit(cfg, run[k])
  {
    hide Inv, Next, Small;
    InitInv(cfg, run[0]);
    if k == 0 {
      SumZero(Accounts(SurplusOf(), run[0].threads));
    } else {
      RunWithinLimit(cfg, run, sched, k - 1);
      RunInv(cfg, run, sched, k - 1);
      WithinLimitStep(cfg, run[k - 1], sched[k - 1].0, sched[k - 1].1);
    }
  }

  // Every surplus place is a place.
  lemma SurplusHasSeat(pc: Pc)
    requires SurplusOk(pc)
    ensures Surplus(pc) <= Seats(pc)
  {
  }

  // In every state of every run the table holds at most occupancy_limit_ entries.
  lemma EntriesWithinLimit(cfg: Config, run: seq<State>, sched: seq<(nat, Choice)>, k: nat)
    requires IsRun(cfg, run, sched) && Init(cfg, run[0]) && k < |run|
    ensures SlotSum(CountOf(), run[k].sh.slots) <= cfg.occupancyLimit
  {
    hide Locals, Displacements, Protocol, Usage, Small, Next, Surplus, Seats, SurplusOk;
    InitInv(cfg, run[0]);
    RunInv(cfg, run, sched, k);
    RunWithinLimit(cfg, run, sched, k);
    var threads := run[k].threads;
    forall t | 0 <= t < |threads| ensures Surplus(threads[t]) <= Seats(threads[t]) { SurplusHasSeat(threads[t]); }
    SumMonotone(Accounts(SurplusOf(), threads), Accounts(SeatsOf(), threads));
  }
}
