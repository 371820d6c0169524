// What a thread of the clock table accounts for at each program point, and the
// step lemmas: one step changes a shared quantity by exactly as much as it
// changes the account of the thread that takes the step.
module ClockLedger {
  import opened Probing
  import opened ClockTable

  // -- the accounts of one thread ------------------------------------------

  function If(c: bool, v: nat): nat { if c then v else 0 }

  // References on slot s held inside an operation.
  function Refs(cfg: Config, pc: Pc, s: nat): nat {
    match pc
    case Lookup(lk, key, i) => If((lk.LkCompare? || lk.LkHit? || lk.LkUnref?) && At(cfg, key, i) == s, 1)
    case Insert(at, ins, i) =>
      If((at.InCompare? || at.InBoost? || at.InUnref?) && At(cfg, ins.key, i) == s, ins.countdown)
    case Erase(er, key, i) =>
      If((er.ErCompare? || er.ErHide? || er.ErTake? || er.ErUnref?) && At(cfg, key, i) == s, 1)
    case Release(rl, x) => If(rl.RlUnref? && x == s, 1)
    case _ => 0
  }

  // Exclusive ownership of slot s for construction or deconstruction.
  function Owns(cfg: Config, pc: Pc, s: nat): (o: nat)
    ensures o <= 1
  {
    match pc
    case Insert(at, ins, i) => If((at.InFill? || at.InPublish?) && At(cfg, ins.key, i) == s, 1)
    case Evict(ev, sw) => If((ev.EvRollback? || ev.EvFree?) && ClockSlot(cfg, sw.ptr, sw.i) == s, 1)
    case Remove(rm, key, i, _) => If(rm.RmFree? && At(cfg, key, i) == s, 1)
    case Drop(dr, x, _) => If((dr.DrRollback? || dr.DrFree?) && x == s, 1)
    case _ => 0
  }

  // Displacements on slot s that an unfinished probe or rollback answers for.
  ghost function Charged(cfg: Config, pc: Pc, s: nat): nat {
    var n := cfg.Size();
    match pc
    case Insert(_, ins, i) => Touches(ins.key, 0, i, s, n)
    case Undo(un, ins) => if un.UnRollback? then Touches(ins.key, un.j, un.stop, s, n) else 0
    case Evict(ev, sw) =>
      if ev.EvRollback? then Touches(ev.key, ev.j, PosOf(ev.key, ClockSlot(cfg, sw.ptr, sw.i), cfg.bits), s, n) else 0
    case Remove(rm, key, i, _) => Touches(key, if rm.RmRollback? then rm.j else 0, i, s, n)
    case Drop(dr, x, _) =>
      if dr.DrRollback? && x < n then Touches(dr.key, dr.j, PosOf(dr.key, x, cfg.bits), s, n) else 0
    case _ => 0
  }

  // Usage that belongs to the thread rather than to a stored entry.
  function Credit(pc: Pc): int {
    match pc
    case Evict(_, sw) => sw.taken + sw.freedCharge
    case Insert(_, ins, _) => ins.charge
    case Undo(un, ins) =>
      if un.UnForce? || (un.UnOccupancy? && !un.why.NotInserted?) then 0 else ins.charge
    case Remove(rm, _, _, charge) => if rm.RmRollback? then 0 else charge
    case Drop(_, _, charge) => charge
    case _ => 0
  }

  // Occupancy that belongs to the thread rather than to a stored entry.
  function Seats(pc: Pc): int {
    match pc
    case Charge(c, ins) => If(!c.ChOccupy? && !ins.alone, 1)
    case Evict(ev, sw) => If(!sw.ins.alone, 1) + If(!ev.EvSettle?, sw.freedCount)
    case Insert(_, _, _) => 1
    case Undo(un, _) => If(un.UnRollback? || un.UnOccupancy?, 1)
    case Remove(rm, _, _, _) => If(rm.RmFree? || rm.RmOccupancy?, 1)
    case Drop(dr, _, _) => If(!dr.DrUsage?, 1)
    case _ => 0
  }

  // -- what a thread knows --------------------------------------------------

  // What the thread read before it tries a CAS.
  predicate Guarded(pc: Pc) {
    match pc
    case Evict(ev, _) =>
      && (ev.EvAge? ==> ev.seen.state.Visible? && ev.seen.acq == ev.seen.rel)
      && (ev.EvTake? ==> Shareable(ev.seen) && ev.seen.acq == ev.seen.rel)
    case Erase(er, _, _) => er.ErTake? ==> Shareable(er.seen)
    case Release(rl, _) => rl.RlSweep? ==> Shareable(rl.seen) && Refcount(rl.seen) == 0
    case Insert(_, ins, _) => ins.countdown >= 1
    case _ => true
  }

  predicate InsOk(ins: Ins) {
    1 <= ins.countdown <= MAX_COUNTDOWN && ins.charge < WORD
  }

  // The charging decision: what the CAS took plus what is still needed is the
  // charge of the new entry, in size_t arithmetic; an eviction run that freed
  // nothing freed no charge.
  predicate SweepOk(sw: Sweep) {
    && InsOk(sw.ins)
    && (sw.freedCount == 0 ==> sw.freedCharge == 0)
    && sw.need < WORD && sw.freedCharge < WORD
    && (sw.strict ==> Cong(sw.taken + sw.need, sw.ins.charge))
    && (!sw.strict ==> sw.taken == 0 && sw.need == 0)
  }

  // Facts about the thread alone.
  ghost predicate Local(cfg: Config, pc: Pc) {
    && InRange(cfg, pc)
    && Guarded(pc)
    && var n := cfg.Size();
      match pc
      case Lookup(_, _, i) => i < n
      case Charge(c, ins) => InsOk(ins) && (ins.alone ==> !c.ChOccupy?)
      case Evict(ev, sw) =>
        SweepOk(sw) && (ev.EvRollback? ==> ev.j <= PosOf(ev.key, ClockSlot(cfg, sw.ptr, sw.i), cfg.bits))
      case Insert(_, ins, i) => InsOk(ins) && i < n
      case Undo(un, ins) => InsOk(ins) && (un.UnRollback? ==> un.j <= un.stop < n)
      case Erase(_, _, i) => i < n
      case Remove(rm, _, i, _) => i < n && (rm.RmRollback? ==> rm.j <= i)
      case Drop(dr, x, _) => dr.DrRollback? ==> dr.j <= PosOf(dr.key, x, cfg.bits)
      case _ => true
  }

  // Facts about data that the thread protects with a reference or by owning
  // the slot.
  predicate Pinned(cfg: Config, sh: Shared, pc: Pc)
    requires Shape(cfg, sh)
  {
    match pc
    case Lookup(lk, key, i) => lk.LkHit? ==> sh.slots[At(cfg, key, i)].key == key
    case Erase(er, key, i) => er.ErHide? || er.ErTake? ==> sh.slots[At(cfg, key, i)].key == key
    case Insert(at, ins, i) =>
      at.InPublish? ==>
        sh.slots[At(cfg, ins.key, i)].key == ins.key && sh.slots[At(cfg, ins.key, i)].charge == ins.charge
    case _ => true
  }

  // The counters stay in the range that the source assumes ("we never have
  // many millions of simultaneous references").
  predicate Small(sh: Shared) {
    forall x :: 0 <= x < |sh.slots| ==> sh.slots[x].meta.acq < COUNTER_LIMIT && sh.slots[x].meta.rel < COUNTER_LIMIT
  }

  // -- one slot against the sums over all threads ----------------------------

  // In a shareable slot acquires minus releases is the number of references;
  // outside those states nobody holds one.
  predicate RefsHold(m: Meta, users: nat, refs: int) {
    if Shareable(m) then m.acq == m.rel + users + refs else users == 0 && refs == 0
  }

  // A slot is under construction exactly when it has an owner, and then one.
  predicate OwnsHold(m: Meta, owns: int) {
    owns == if m.state.Construction? then 1 else 0
  }

  // What the steps of one thread may assume about a slot.
  predicate SlotView(cfg: Config, sh: Shared, pc: Pc, s: nat, refs: int, owns: int)
    requires Shape(cfg, sh) && s < cfg.Size()
  {
    && RefsHold(sh.slots[s].meta, sh.users[s], refs)
    && OwnsHold(sh.slots[s].meta, owns)
    && refs >= Refs(cfg, pc, s)
    && owns >= Owns(cfg, pc, s)
  }

  predicate SlotKept(cfg: Config, sh': Shared, pc: Pc, pc': Pc, s: nat, refs: int, owns: int)
    requires Shape(cfg, sh') && s < cfg.Size()
  {
    && RefsHold(sh'.slots[s].meta, sh'.users[s], refs + Refs(cfg, pc', s) - Refs(cfg, pc, s))
    && OwnsHold(sh'.slots[s].meta, owns + Owns(cfg, pc', s) - Owns(cfg, pc, s))
  }

  // Below the limit the difference of the counters is the reference count, and a
  // negative one is far away from zero.
  lemma RefcountExact(m: Meta)
    requires m.acq < COUNTER_LIMIT && m.rel < COUNTER_LIMIT
    ensures m.acq >= m.rel ==> Refcount(m) == m.acq - m.rel
    ensures m.acq < m.rel ==> Refcount(m) > 1
  {
  }

  // The protocol of one slot: every step keeps references and ownership.
  lemma SlotStepLookup(cfg: Config, sh: Shared, lk: LookupAt, key: Key, i: nat, s: nat, refs: int, owns: int)
    requires Shape(cfg, sh) && Guarded(Lookup(lk, key, i)) && Small(sh) && s < cfg.Size()
    requires SlotView(cfg, sh, Lookup(lk, key, i), s, refs, owns)
    ensures var (sh', pc') := NextLookup(cfg, sh, lk, key, i);
      SlotKept(cfg, sh', Lookup(lk, key, i), pc', s, refs, owns)
  {
    hide Probe, ClockSlot, Pow2, U;
  }

  lemma SlotStepCharge(cfg: Config, sh: Shared, c: ChargeAt, ins: Ins, spurious: bool, s: nat, refs: int, owns: int)
    requires Shape(cfg, sh) && Guarded(Charge(c, ins)) && Small(sh) && s < cfg.Size()
    requires SlotView(cfg, sh, Charge(c, ins), s, refs, owns)
    ensures var (sh', pc') := NextCharge(cfg, sh, c, ins, spurious);
      SlotKept(cfg, sh', Charge(c, ins), pc', s, refs, owns)
  {
    hide Probe, ClockSlot, Pow2, U;
  }

  lemma SlotStepEvict(cfg: Config, sh: Shared, ev: EvictAt, sw: Sweep, s: nat, refs: int, owns: int)
    requires Shape(cfg, sh) && Guarded(Evict(ev, sw)) && Small(sh) && s < cfg.Size()
    requires SlotView(cfg, sh, Evict(ev, sw), s, refs, owns)
    ensures var (sh', pc') := NextEvict(cfg, sh, ev, sw); SlotKept(cfg, sh', Evict(ev, sw), pc', s, refs, owns)
  {
    hide Probe, ClockSlot, Pow2, U, EffortExceeded;
  }

  lemma SlotStepInsert(cfg: Config, sh: Shared, at: InsertAt, ins: Ins, i: nat, s: nat, refs: int, owns: int)
    requires Shape(cfg, sh) && Guarded(Insert(at, ins, i)) && Small(sh) && s < cfg.Size()
    requires SlotView(cfg, sh, Insert(at, ins, i), s, refs, owns)
    ensures var (sh', pc') := NextInsert(cfg, sh, at, ins, i);
      SlotKept(cfg, sh', Insert(at, ins, i), pc', s, refs, owns)
  {
    hide Probe, ClockSlot, Pow2, U;
  }

  lemma SlotStepUndo(cfg: Config, sh: Shared, un: UndoAt, ins: Ins, s: nat, refs: int, owns: int)
    requires Shape(cfg, sh) && Guarded(Undo(un, ins)) && Small(sh) && s < cfg.Size()
    requires SlotView(cfg, sh, Undo(un, ins), s, refs, owns)
    ensures var (sh', pc') := NextUndo(cfg, sh, un, ins); SlotKept(cfg, sh', Undo(un, ins), pc', s, refs, owns)
  {
    hide Probe, ClockSlot, Pow2, U;
  }

  lemma SlotStepErase(cfg: Config, sh: Shared, er: EraseAt, key: Key, i: nat, spurious: bool, s: nat, refs: int,
                      owns: int)
    requires Shape(cfg, sh) && Guarded(Erase(er, key, i)) && Small(sh) && s < cfg.Size()
    requires SlotView(cfg, sh, Erase(er, key, i), s, refs, owns)
    ensures var (sh', pc') := NextErase(cfg, sh, er, key, i, spurious);
      SlotKept(cfg, sh', Erase(er, key, i), pc', s, refs, owns)
  {
    hide Probe, ClockSlot, Pow2, U, Refcount;
    RefcountExact(sh.slots[At(cfg, key, i)].meta);
  }

  lemma SlotStepRemove(cfg: Config, sh: Shared, rm: RemoveAt, key: Key, i: nat, charge: nat, s: nat, refs: int,
                       owns: int)
    requires Shape(cfg, sh) && Guarded(Remove(rm, key, i, charge)) && Small(sh) && s < cfg.Size()
    requires SlotView(cfg, sh, Remove(rm, key, i, charge), s, refs, owns)
    ensures var (sh', pc') := NextRemove(cfg, sh, rm, key, i, charge);
      SlotKept(cfg, sh', Remove(rm, key, i, charge), pc', s, refs, owns)
  {
    hide Probe, ClockSlot, Pow2, U;
  }

  lemma SlotStepRelease(cfg: Config, sh: Shared, rl: ReleaseAt, x: nat, spurious: bool, s: nat, refs: int, owns: int)
    requires Shape(cfg, sh) && x < cfg.Size() && Guarded(Release(rl, x)) && Small(sh) && s < cfg.Size()
    requires SlotView(cfg, sh, Release(rl, x), s, refs, owns)
    ensures var (sh', pc') := NextRelease(cfg, sh, rl, x, spurious);
      SlotKept(cfg, sh', Release(rl, x), pc', s, refs, owns)
  {
    hide Probe, ClockSlot, Pow2, U, Refcount;
    RefcountExact(sh.slots[x].meta);
  }

  lemma SlotStepDrop(cfg: Config, sh: Shared, dr: DropAt, x: nat, charge: nat, s: nat, refs: int, owns: int)
    requires Shape(cfg, sh) && x < cfg.Size() && Guarded(Drop(dr, x, charge)) && Small(sh) && s < cfg.Size()
    requires SlotView(cfg, sh, Drop(dr, x, charge), s, refs, owns)
    ensures var (sh', pc') := NextDrop(cfg, sh, dr, x, charge);
      SlotKept(cfg, sh', Drop(dr, x, charge), pc', s, refs, owns)
  {
    hide Probe, ClockSlot, Pow2, U;
  }

  lemma SlotStepBegin(cfg: Config, sh: Shared, ch: Choice, s: nat, refs: int, owns: int)
    requires Shape(cfg, sh) && Guarded(Idle) && Small(sh) && s < cfg.Size()
    requires SlotView(cfg, sh, Idle, s, refs, owns)
    ensures var (sh', pc') := Begin(cfg, sh, ch); SlotKept(cfg, sh', Idle, pc', s, refs, owns)
  {
    hide Probe, ClockSlot, Pow2, U, Refcount;
  }

  lemma SlotStep(cfg: Config, sh: Shared, pc: Pc, ch: Choice, s: nat, refs: int, owns: int)
    requires Shape(cfg, sh) && InRange(cfg, pc) && Guarded(pc) && Small(sh) && s < cfg.Size()
    requires SlotView(cfg, sh, pc, s, refs, owns)
    ensures var (sh', pc') := Next(cfg, sh, pc, ch); SlotKept(cfg, sh', pc, pc', s, refs, owns)
  {
    hide NextLookup, NextCharge, NextEvict, NextInsert, NextUndo, NextErase, NextRemove, NextRelease, NextDrop, Begin;
    var spurious := ch.Go? && ch.spurious;
    match pc
    case Idle => SlotStepBegin(cfg, sh, ch, s, refs, owns);
    case Done(_) =>
    case Lookup(lk, key, i) => SlotStepLookup(cfg, sh, lk, key, i, s, refs, owns);
    case Charge(c, ins) => SlotStepCharge(cfg, sh, c, ins, spurious, s, refs, owns);
    case Evict(ev, sw) => SlotStepEvict(cfg, sh, ev, sw, s, refs, owns);
    case Insert(at, ins, i) => SlotStepInsert(cfg, sh, at, ins, i, s, refs, owns);
    case Undo(un, ins) => SlotStepUndo(cfg, sh, un, ins, s, refs, owns);
    case Erase(er, key, i) => SlotStepErase(cfg, sh, er, key, i, spurious, s, refs, owns);
    case Remove(rm, key, i, charge) => SlotStepRemove(cfg, sh, rm, key, i, charge, s, refs, owns);
    case Release(rl, x) => SlotStepRelease(cfg, sh, rl, x, spurious, s, refs, owns);
    case Drop(dr, x, charge) => SlotStepDrop(cfg, sh, dr, x, charge, s, refs, owns);
  }
}
