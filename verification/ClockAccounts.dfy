// The remaining step lemmas of the clock table: local facts, the stability of
// stored data, displacements, usage and occupancy.
module ClockAccounts {
  import opened Probing
  import opened ClockTable
  import opened ClockLedger

  // -- the accounts of one stored entry --------------------------------------

  // The displacements that the entry stored in slot x causes on slot s: one for
  // every probe position before its own.
  ghost function EntryTouches(cfg: Config, s: nat, x: nat, sl: Slot): nat {
    if Shareable(sl.meta) && x < cfg.Size()
    then Touches(sl.key, 0, PosOf(sl.key, x, cfg.bits), s, cfg.Size()) else 0
  }

  function EntryCharge(sl: Slot): nat {
    if Shareable(sl.meta) then sl.charge else 0
  }

  function EntryCount(sl: Slot): nat {
    if Shareable(sl.meta) then 1 else 0
  }

  // -- which slot a step writes ------------------------------------------------

  function Touched(cfg: Config, pc: Pc, ch: Choice): (x: nat)
    requires InRange(cfg, pc)
    ensures x < cfg.Size()
  {
    match pc
    case Idle =>
      if (ch.StartRelease? || ch.StartRef? || ch.StartSweep? || ch.StartApply?) && ch.x < cfg.Size() then ch.x else 0
    case Done(_) => 0
    case Lookup(_, key, i) => At(cfg, key, i)
    case Charge(_, _) => 0
    case Evict(ev, sw) => if ev.EvRollback? then At(cfg, ev.key, ev.j) else ClockSlot(cfg, sw.ptr, sw.i)
    case Insert(_, ins, i) => At(cfg, ins.key, i)
    case Undo(un, ins) => if un.UnRollback? then At(cfg, ins.key, un.j) else 0
    case Erase(_, key, i) => At(cfg, key, i)
    case Remove(rm, key, i, _) => At(cfg, key, if rm.RmRollback? then rm.j else i)
    case Release(_, x) => x
    case Drop(dr, x, _) => if dr.DrRollback? then At(cfg, dr.key, dr.j) else x
  }

  // References are to shareable slots, owned slots are under construction.
  predicate Grounded(cfg: Config, sh: Shared, pc: Pc)
    requires Shape(cfg, sh)
  {
    forall s :: 0 <= s < cfg.Size() ==>
      && (Refs(cfg, pc, s) > 0 ==> Shareable(sh.slots[s].meta))
      && (Owns(cfg, pc, s) > 0 ==> sh.slots[s].meta.state.Construction?)
  }

  lemma GroundedAt(cfg: Config, sh: Shared, pc: Pc, s: nat)
    requires Shape(cfg, sh) && Grounded(cfg, sh, pc) && s < cfg.Size()
    ensures Refs(cfg, pc, s) > 0 ==> Shareable(sh.slots[s].meta)
    ensures Owns(cfg, pc, s) > 0 ==> sh.slots[s].meta.state.Construction?
  {
  }

  // -- what one step keeps: the shared quantity moves with the accounts ---------

  predicate DataKept(cfg: Config, sh: Shared, pc: Pc, sh': Shared)
    requires Shape(cfg, sh) && Shape(cfg, sh')
  {
    forall s :: 0 <= s < cfg.Size() && Owns(cfg, pc, s) == 0 ==>
      sh'.slots[s].key == sh.slots[s].key && sh'.slots[s].charge == sh.slots[s].charge
  }

  predicate OccupancyKept(sh: Shared, pc: Pc, sh': Shared, pc': Pc, w: nat) {
    && w < |sh.slots| && w < |sh'.slots|
    && sh'.occupancy - sh.occupancy == EntryCount(sh'.slots[w]) - EntryCount(sh.slots[w]) + Seats(pc') - Seats(pc)
  }

  predicate UsageKept(sh: Shared, pc: Pc, sh': Shared, pc': Pc, w: nat) {
    && w < |sh.slots| && w < |sh'.slots|
    && Cong(sh'.usage, sh.usage + EntryCharge(sh'.slots[w]) - EntryCharge(sh.slots[w]) + sh'.loose - sh.loose
                       + Credit(pc') - Credit(pc))
  }

  ghost predicate DispKept(cfg: Config, sh: Shared, pc: Pc, sh': Shared, pc': Pc, w: nat, s: nat) {
    && w < |sh.slots| && w < |sh'.slots| && s < |sh.slots| && s < |sh'.slots|
    && sh'.slots[s].disp - sh.slots[s].disp
       == EntryTouches(cfg, s, w, sh'.slots[w]) - EntryTouches(cfg, s, w, sh.slots[w])
          + Charged(cfg, pc', s) - Charged(cfg, pc, s)
  }

  // -- local facts -----------------------------------------------------------

  lemma LocalStepLookup(cfg: Config, sh: Shared, lk: LookupAt, key: Key, i: nat)
    requires Shape(cfg, sh) && Local(cfg, Lookup(lk, key, i)) && Grounded(cfg, sh, Lookup(lk, key, i))
    ensures var (sh', pc') := NextLookup(cfg, sh, lk, key, i); Local(cfg, pc')
  {
    hide Probe, ClockSlot, Pow2;
    ProbeWraps(key, cfg.Size());
  }

  lemma LocalStepCharge(cfg: Config, sh: Shared, c: ChargeAt, ins: Ins, spurious: bool)
    requires Shape(cfg, sh) && Local(cfg, Charge(c, ins)) && Grounded(cfg, sh, Charge(c, ins))
    ensures var (sh', pc') := NextCharge(cfg, sh, c, ins, spurious); Local(cfg, pc')
  {
    hide Probe, ClockSlot, Pow2, U, Cong;
    if c.ChCas? {
      var now := NewUsage(c.was, ins.charge, c.cap);
      var need := c.was + ins.charge - now;
      CongU(need);
      CongRefl(now - c.was);
      CongAdd(now - c.was, now - c.was, U(need), need);
    }
  }

  lemma LocalStepEvict(cfg: Config, sh: Shared, ev: EvictAt, sw: Sweep)
    requires Shape(cfg, sh) && Local(cfg, Evict(ev, sw)) && Grounded(cfg, sh, Evict(ev, sw))
    ensures var (sh', pc') := NextEvict(cfg, sh, ev, sw); Local(cfg, pc')
  {
    hide Probe, ClockSlot, Pow2, EffortExceeded;
  }

  lemma LocalStepInsert(cfg: Config, sh: Shared, at: InsertAt, ins: Ins, i: nat)
    requires Shape(cfg, sh) && Local(cfg, Insert(at, ins, i)) && Grounded(cfg, sh, Insert(at, ins, i))
    ensures var (sh', pc') := NextInsert(cfg, sh, at, ins, i); Local(cfg, pc')
  {
    hide Probe, ClockSlot, Pow2;
    ProbeWraps(ins.key, cfg.Size());
  }

  lemma LocalStepUndo(cfg: Config, sh: Shared, un: UndoAt, ins: Ins)
    requires Shape(cfg, sh) && Local(cfg, Undo(un, ins)) && Grounded(cfg, sh, Undo(un, ins))
    ensures var (sh', pc') := NextUndo(cfg, sh, un, ins); Local(cfg, pc')
  {
    hide Probe, ClockSlot, Pow2;
  }

  lemma LocalStepErase(cfg: Config, sh: Shared, er: EraseAt, key: Key, i: nat, spurious: bool)
    requires Shape(cfg, sh) && Local(cfg, Erase(er, key, i)) && Grounded(cfg, sh, Erase(er, key, i))
    ensures var (sh', pc') := NextErase(cfg, sh, er, key, i, spurious); Local(cfg, pc')
  {
    hide Probe, ClockSlot, Pow2;
    ProbeWraps(key, cfg.Size());
    GroundedAt(cfg, sh, Erase(er, key, i), At(cfg, key, i));
  }

  lemma LocalStepRemove(cfg: Config, sh: Shared, rm: RemoveAt, key: Key, i: nat, charge: nat)
    requires Shape(cfg, sh) && Local(cfg, Remove(rm, key, i, charge)) && Grounded(cfg, sh, Remove(rm, key, i, charge))
    ensures var (sh', pc') := NextRemove(cfg, sh, rm, key, i, charge); Local(cfg, pc')
  {
    hide Probe, ClockSlot, Pow2;
  }

  lemma LocalStepRelease(cfg: Config, sh: Shared, rl: ReleaseAt, x: nat, spurious: bool)
    requires Shape(cfg, sh) && x < cfg.Size() && Local(cfg, Release(rl, x)) && Grounded(cfg, sh, Release(rl, x))
    ensures var (sh', pc') := NextRelease(cfg, sh, rl, x, spurious); Local(cfg, pc')
  {
    hide Probe, ClockSlot, Pow2;
  }

  lemma LocalStepDrop(cfg: Config, sh: Shared, dr: DropAt, x: nat, charge: nat)
    requires Shape(cfg, sh) && x < cfg.Size() && Local(cfg, Drop(dr, x, charge))
    requires Grounded(cfg, sh, Drop(dr, x, charge))
    ensures var (sh', pc') := NextDrop(cfg, sh, dr, x, charge); Local(cfg, pc')
  {
    hide Probe, ClockSlot, Pow2;
  }

  lemma LocalStepBegin(cfg: Config, sh: Shared, ch: Choice)
    requires Shape(cfg, sh) && Local(cfg, Idle) && Grounded(cfg, sh, Idle)
    ensures var (sh', pc') := Begin(cfg, sh, ch); Local(cfg, pc')
  {
    hide Probe, ClockSlot, Pow2;
  }

  lemma LocalStep(cfg: Config, sh: Shared, pc: Pc, ch: Choice)
    requires Shape(cfg, sh) && InRange(cfg, pc) && Local(cfg, pc) && Grounded(cfg, sh, pc)
    ensures var (sh', pc') := Next(cfg, sh, pc, ch); Local(cfg, pc')
  {
    hide NextLookup, NextCharge, NextEvict, NextInsert, NextUndo, NextErase, NextRemove, NextRelease, NextDrop, Begin;
    var spurious := ch.Go? && ch.spurious;
    match pc
    case Idle => LocalStepBegin(cfg, sh, ch);
    case Done(_) =>
    case Lookup(lk, key, i) => LocalStepLookup(cfg, sh, lk, key, i);
    case Charge(c, ins) => LocalStepCharge(cfg, sh, c, ins, spurious);
    case Evict(ev, sw) => LocalStepEvict(cfg, sh, ev, sw);
    case Insert(at, ins, i) => LocalStepInsert(cfg, sh, at, ins, i);
    case Undo(un, ins) => LocalStepUndo(cfg, sh, un, ins);
    case Erase(er, key, i) => LocalStepErase(cfg, sh, er, key, i, spurious);
    case Remove(rm, key, i, charge) => LocalStepRemove(cfg, sh, rm, key, i, charge);
    case Release(rl, x) => LocalStepRelease(cfg, sh, rl, x, spurious);
    case Drop(dr, x, charge) => LocalStepDrop(cfg, sh, dr, x, charge);
  }

  // -- stored data: a step writes at most one slot, and only the owner of a slot
  // writes its key or its charge ------------------------------------------------

  lemma DataStepLookup(cfg: Config, sh: Shared, lk: LookupAt, key: Key, i: nat)
    requires Shape(cfg, sh) && Pinned(cfg, sh, Lookup(lk, key, i))
    ensures var (sh', pc') := NextLookup(cfg, sh, lk, key, i); Pinned(cfg, sh', pc')
    ensures var (sh', pc') := NextLookup(cfg, sh, lk, key, i); var w := Touched(cfg, Lookup(lk, key, i), Go(false));
      sh'.slots == sh.slots[w := sh'.slots[w]]
    ensures var (sh', pc') := NextLookup(cfg, sh, lk, key, i); DataKept(cfg, sh, Lookup(lk, key, i), sh')
  {
    hide Probe, ClockSlot, Pow2, U;
  }

  lemma DataStepCharge(cfg: Config, sh: Shared, c: ChargeAt, ins: Ins, spurious: bool)
    requires Shape(cfg, sh) && Pinned(cfg, sh, Charge(c, ins))
    ensures var (sh', pc') := NextCharge(cfg, sh, c, ins, spurious); Pinned(cfg, sh', pc')
    ensures var (sh', pc') := NextCharge(cfg, sh, c, ins, spurious); var w := Touched(cfg, Charge(c, ins), Go(false));
      sh'.slots == sh.slots[w := sh'.slots[w]]
    ensures var (sh', pc') := NextCharge(cfg, sh, c, ins, spurious); DataKept(cfg, sh, Charge(c, ins), sh')
  {
    hide Probe, ClockSlot, Pow2, U;
  }

  lemma DataStepEvict(cfg: Config, sh: Shared, ev: EvictAt, sw: Sweep)
    requires Shape(cfg, sh) && Pinned(cfg, sh, Evict(ev, sw))
    ensures var (sh', pc') := NextEvict(cfg, sh, ev, sw); Pinned(cfg, sh', pc')
    ensures var (sh', pc') := NextEvict(cfg, sh, ev, sw); var w := Touched(cfg, Evict(ev, sw), Go(false));
      sh'.slots == sh.slots[w := sh'.slots[w]]
    ensures var (sh', pc') := NextEvict(cfg, sh, ev, sw); DataKept(cfg, sh, Evict(ev, sw), sh')
  {
    hide Probe, ClockSlot, Pow2, U, EffortExceeded;
  }

  lemma DataStepInsert(cfg: Config, sh: Shared, at: InsertAt, ins: Ins, i: nat)
    requires Shape(cfg, sh) && Pinned(cfg, sh, Insert(at, ins, i))
    ensures var (sh', pc') := NextInsert(cfg, sh, at, ins, i); Pinned(cfg, sh', pc')
    ensures var (sh', pc') := NextInsert(cfg, sh, at, ins, i); var w := Touched(cfg, Insert(at, ins, i), Go(false));
      sh'.slots == sh.slots[w := sh'.slots[w]]
    ensures var (sh', pc') := NextInsert(cfg, sh, at, ins, i); DataKept(cfg, sh, Insert(at, ins, i), sh')
  {
    hide Probe, ClockSlot, Pow2, U;
  }

  lemma DataStepUndo(cfg: Config, sh: Shared, un: UndoAt, ins: Ins)
    requires Shape(cfg, sh) && Pinned(cfg, sh, Undo(un, ins))
    ensures var (sh', pc') := NextUndo(cfg, sh, un, ins); Pinned(cfg, sh', pc')
    ensures var (sh', pc') := NextUndo(cfg, sh, un, ins); var w := Touched(cfg, Undo(un, ins), Go(false));
      sh'.slots == sh.slots[w := sh'.slots[w]]
    ensures var (sh', pc') := NextUndo(cfg, sh, un, ins); DataKept(cfg, sh, Undo(un, ins), sh')
  {
    hide Probe, ClockSlot, Pow2, U;
  }

  lemma DataStepErase(cfg: Config, sh: Shared, er: EraseAt, key: Key, i: nat, spurious: bool)
    requires Shape(cfg, sh) && Pinned(cfg, sh, Erase(er, key, i))
    ensures var (sh', pc') := NextErase(cfg, sh, er, key, i, spurious); Pinned(cfg, sh', pc')
    ensures var (sh', pc') := NextErase(cfg, sh, er, key, i, spurious);
      var w := Touched(cfg, Erase(er, key, i), Go(false)); sh'.slots == sh.slots[w := sh'.slots[w]]
    ensures var (sh', pc') := NextErase(cfg, sh, er, key, i, spurious); DataKept(cfg, sh, Erase(er, key, i), sh')
  {
    hide Probe, ClockSlot, Pow2, U;
  }

  lemma DataStepRemove(cfg: Config, sh: Shared, rm: RemoveAt, key: Key, i: nat, charge: nat)
    requires Shape(cfg, sh) && Pinned(cfg, sh, Remove(rm, key, i, charge))
    ensures var (sh', pc') := NextRemove(cfg, sh, rm, key, i, charge); Pinned(cfg, sh', pc')
    ensures var (sh', pc') := NextRemove(cfg, sh, rm, key, i, charge);
      var w := Touched(cfg, Remove(rm, key, i, charge), Go(false)); sh'.slots == sh.slots[w := sh'.slots[w]]
    ensures var (sh', pc') := NextRemove(cfg, sh, rm, key, i, charge);
      DataKept(cfg, sh, Remove(rm, key, i, charge), sh')
  {
    hide Probe, ClockSlot, Pow2, U;
  }

  lemma DataStepRelease(cfg: Config, sh: Shared, rl: ReleaseAt, x: nat, spurious: bool)
    requires Shape(cfg, sh) && x < cfg.Size() && Pinned(cfg, sh, Release(rl, x))
    ensures var (sh', pc') := NextRelease(cfg, sh, rl, x, spurious); Pinned(cfg, sh', pc')
    ensures var (sh', pc') := NextRelease(cfg, sh, rl, x, spurious); var w := Touched(cfg, Release(rl, x), Go(false));
      sh'.slots == sh.slots[w := sh'.slots[w]]
    ensures var (sh', pc') := NextRelease(cfg, sh, rl, x, spurious); DataKept(cfg, sh, Release(rl, x), sh')
  {
    hide Probe, ClockSlot, Pow2, U;
  }

  lemma DataStepDrop(cfg: Config, sh: Shared, dr: DropAt, x: nat, charge: nat)
    requires Shape(cfg, sh) && x < cfg.Size() && Pinned(cfg, sh, Drop(dr, x, charge))
    ensures var (sh', pc') := NextDrop(cfg, sh, dr, x, charge); Pinned(cfg, sh', pc')
    ensures var (sh', pc') := NextDrop(cfg, sh, dr, x, charge); var w := Touched(cfg, Drop(dr, x, charge), Go(false));
      sh'.slots == sh.slots[w := sh'.slots[w]]
    ensures var (sh', pc') := NextDrop(cfg, sh, dr, x, charge); DataKept(cfg, sh, Drop(dr, x, charge), sh')
  {
    hide Probe, ClockSlot, Pow2, U;
  }

  lemma DataStepBegin(cfg: Config, sh: Shared, ch: Choice)
    requires Shape(cfg, sh) && Pinned(cfg, sh, Idle)
    ensures var (sh', pc') := Begin(cfg, sh, ch); Pinned(cfg, sh', pc')
    ensures var (sh', pc') := Begin(cfg, sh, ch); var w := Touched(cfg, Idle, ch);
      sh'.slots == sh.slots[w := sh'.slots[w]]
    ensures var (sh', pc') := Begin(cfg, sh, ch); DataKept(cfg, sh, Idle, sh')
  {
    hide Probe, ClockSlot, Pow2, U;
  }

  lemma DataStepDone(cfg: Config, sh: Shared, result: Option<nat>)
    requires Shape(cfg, sh) && Pinned(cfg, sh, Done(result))
    ensures var (sh', pc') := (sh, Idle); Pinned(cfg, sh', pc')
    ensures var (sh', pc') := (sh, Idle); var w := Touched(cfg, Done(result), Go(false));
      sh'.slots == sh.slots[w := sh'.slots[w]]
    ensures var (sh', pc') := (sh, Idle); DataKept(cfg, sh, Done(result), sh')
  {
    hide Probe, ClockSlot, Pow2, U;
  }

  lemma DataStep(cfg: Config, sh: Shared, pc: Pc, ch: Choice)
    requires Shape(cfg, sh) && InRange(cfg, pc) && Pinned(cfg, sh, pc)
    ensures var (sh', pc') := Next(cfg, sh, pc, ch); Pinned(cfg, sh', pc')
    ensures var (sh', pc') := Next(cfg, sh, pc, ch); var w := Touched(cfg, pc, ch);
      sh'.slots == sh.slots[w := sh'.slots[w]]
    ensures var (sh', pc') := Next(cfg, sh, pc, ch); DataKept(cfg, sh, pc, sh')
  {
    hide NextLookup, NextCharge, NextEvict, NextInsert, NextUndo, NextErase, NextRemove, NextRelease, NextDrop;
    hide Begin, Pinned, DataKept;
    var spurious := ch.Go? && ch.spurious;
    match pc
    case Idle => DataStepBegin(cfg, sh, ch);
    case Done(result) => DataStepDone(cfg, sh, result);
    case Lookup(lk, key, i) => DataStepLookup(cfg, sh, lk, key, i);
    case Charge(c, ins) => DataStepCharge(cfg, sh, c, ins, spurious);
    case Evict(ev, sw) => DataStepEvict(cfg, sh, ev, sw);
    case Insert(at, ins, i) => DataStepInsert(cfg, sh, at, ins, i);
    case Undo(un, ins) => DataStepUndo(cfg, sh, un, ins);
    case Erase(er, key, i) => DataStepErase(cfg, sh, er, key, i, spurious);
    case Remove(rm, key, i, charge) => DataStepRemove(cfg, sh, rm, key, i, charge);
    case Release(rl, x) => DataStepRelease(cfg, sh, rl, x, spurious);
    case Drop(dr, x, charge) => DataStepDrop(cfg, sh, dr, x, charge);
  }

  // -- congruence of size_t values ---------------------------------------------

  lemma CongU(x: int)
    ensures Cong(U(x), x)
  {
  }

  lemma CongRefl(a: int)
    ensures Cong(a, a)
  {
  }

  lemma CongBy(a: int, b: int, k: int)
    requires a - b == WORD * k
    ensures Cong(a, b)
  {
  }

  lemma Quotient(a: int, b: int) returns (k: int)
    requires Cong(a, b)
    ensures a - b == WORD * k
  {
    k := (a - b) / WORD;
  }

  lemma CongAdd(a: int, b: int, c: int, d: int)
    requires Cong(a, b) && Cong(c, d)
    ensures Cong(a + c, b + d) && Cong(a - c, b - d)
  {
    hide Cong;
    var k := Quotient(a, b);
    var l := Quotient(c, d);
    CongBy(a + c, b + d, k + l);
    CongBy(a - c, b - d, k - l);
  }

  lemma CongSym(a: int, b: int)
    requires Cong(a, b)
    ensures Cong(b, a)
  {
    hide Cong;
    var k := Quotient(a, b);
    CongBy(b, a, -k);
  }

  lemma CongExact(a: nat, b: nat)
    requires Cong(a, b) && a < WORD && b < WORD
    ensures a == b
  {
  }

  // What settling an eviction run owes: success leaves the thread exactly the
  // charge of its entry, failure leaves it nothing.
  lemma SettleUsage(usage: nat, sw: Sweep)
    requires SweepOk(sw)
    ensures !sw.strict ==>
      Cong(U(usage + sw.ins.charge - sw.freedCharge), usage + sw.ins.charge - (sw.taken + sw.freedCharge))
    ensures sw.strict && sw.freedCharge >= sw.need ==>
      Cong(U(usage - (sw.freedCharge - sw.need)), usage + sw.ins.charge - (sw.taken + sw.freedCharge))
    ensures sw.strict && sw.freedCharge == sw.need ==>
      Cong(usage, usage + sw.ins.charge - (sw.taken + sw.freedCharge))
    ensures Cong(U(usage - (sw.freedCharge + sw.taken)), usage - (sw.taken + sw.freedCharge))
  {
    hide U, Cong;
    CongU(usage + sw.ins.charge - sw.freedCharge);
    CongU(usage - (sw.freedCharge + sw.taken));
    if sw.strict && sw.freedCharge >= sw.need {
      var a := usage - (sw.freedCharge - sw.need);
      CongU(a);
      CongRefl(a - sw.taken - sw.need);
      CongAdd(a - sw.taken - sw.need, a - sw.taken - sw.need, sw.taken + sw.need, sw.ins.charge);
      CongTrans(U(a), a, usage + sw.ins.charge - (sw.taken + sw.freedCharge));
    }
  }

  lemma CongTrans(a: int, b: int, c: int)
    requires Cong(a, b) && Cong(b, c)
    ensures Cong(a, c)
  {
    hide Cong;
    var k := Quotient(a, b);
    var l := Quotient(b, c);
    CongBy(a, c, k + l);
  }

  lemma AccountStepSettle(cfg: Config, sh: Shared, sw: Sweep)
    requires Shape(cfg, sh) && SweepOk(sw)
    ensures var (sh', pc') := NextEvict(cfg, sh, EvSettle, sw);
      OccupancyKept(sh, Evict(EvSettle, sw), sh', pc', ClockSlot(cfg, sw.ptr, sw.i))
      && UsageKept(sh, Evict(EvSettle, sw), sh', pc', ClockSlot(cfg, sw.ptr, sw.i))
  {
    hide Probe, ClockSlot, Pow2, U, Cong;
    SettleUsage(sh.usage, sw);
  }

  lemma AccountStepTake(cfg: Config, sh: Shared, seen: Meta, sw: Sweep)
    requires Shape(cfg, sh) && Guarded(Evict(EvTake(seen), sw))
    ensures var (sh', pc') := NextEvict(cfg, sh, EvTake(seen), sw);
      OccupancyKept(sh, Evict(EvTake(seen), sw), sh', pc', ClockSlot(cfg, sw.ptr, sw.i))
      && UsageKept(sh, Evict(EvTake(seen), sw), sh', pc', ClockSlot(cfg, sw.ptr, sw.i))
  {
    hide Probe, ClockSlot, Pow2, U, Cong, EffortExceeded;
    var f := sw.freedCharge + sh.slots[ClockSlot(cfg, sw.ptr, sw.i)].charge;
    CongRefl(sh.usage);
    CongU(f);
    CongSym(U(f), f);
    CongAdd(sh.usage, sh.usage, f, U(f));
    CongRefl(f);
    CongAdd(sh.usage + f, sh.usage + U(f), f, f);
  }

  // -- occupancy_ and usage_ -------------------------------------------------------------------

  lemma AccountStepLookup(cfg: Config, sh: Shared, lk: LookupAt, key: Key, i: nat)
    requires Shape(cfg, sh) && Local(cfg, Lookup(lk, key, i)) && Pinned(cfg, sh, Lookup(lk, key, i))
    requires Grounded(cfg, sh, Lookup(lk, key, i))
    ensures var (sh', pc') := NextLookup(cfg, sh, lk, key, i);
      OccupancyKept(sh, Lookup(lk, key, i), sh', pc', Touched(cfg, Lookup(lk, key, i), Go(false)))
    ensures var (sh', pc') := NextLookup(cfg, sh, lk, key, i);
      UsageKept(sh, Lookup(lk, key, i), sh', pc', Touched(cfg, Lookup(lk, key, i), Go(false)))
  {
    hide Probe, ClockSlot, Pow2, U, Cong;
    var g := At(cfg, key, i);
    GroundedAt(cfg, sh, Lookup(lk, key, i), g);
    CongRefl(sh.usage);
  }

  // The charging CAS adds to usage_ what the thread then answers for.
  lemma AccountStepCas(cfg: Config, sh: Shared, needOcc: bool, cap: nat, was: nat, ins: Ins, spurious: bool)
    requires Shape(cfg, sh)
    ensures var c := ChCas(needOcc, cap, was);
      var (sh', pc') := NextCharge(cfg, sh, c, ins, spurious);
      OccupancyKept(sh, Charge(c, ins), sh', pc', 0) && UsageKept(sh, Charge(c, ins), sh', pc', 0)
  {
    hide Pow2, U, Cong, NewUsage;
    var now := NewUsage(was, ins.charge, cap);
    var need := was + ins.charge - now;
    CongRefl(sh.usage);
    CongRefl(sh.usage + now - was);
    CongU(need);
    if U(need) == 0 {
      CongRefl(now);
      CongAdd(now, now, U(need), need);
      CongAdd(sh.usage, sh.usage, U(need), need);
    }
  }

  lemma AccountStepCharge(cfg: Config, sh: Shared, c: ChargeAt, ins: Ins, spurious: bool)
    requires Shape(cfg, sh) && Local(cfg, Charge(c, ins))
    ensures var (sh', pc') := NextCharge(cfg, sh, c, ins, spurious);
      OccupancyKept(sh, Charge(c, ins), sh', pc', Touched(cfg, Charge(c, ins), Go(false)))
    ensures var (sh', pc') := NextCharge(cfg, sh, c, ins, spurious);
      UsageKept(sh, Charge(c, ins), sh', pc', Touched(cfg, Charge(c, ins), Go(false)))
  {
    hide Pow2, U, Cong, LaxNeed;
    if c.ChCas? {
      AccountStepCas(cfg, sh, c.needOcc, c.cap, c.was, ins, spurious);
    } else {
      CongRefl(sh.usage);
    }
  }

  // Going on to the next slot moves no account.
  lemma AfterSlotKeeps(cfg: Config, sh: Shared, sw: Sweep)
    ensures var pc := AfterSlot(cfg, sh, sw);
      pc.Evict? && Seats(pc) == If(!sw.ins.alone, 1) + sw.freedCount && Credit(pc) == sw.taken + sw.freedCharge
  {
    hide EffortExceeded;
  }

  predicate AccountsKept(cfg: Config, sh: Shared, ev: EvictAt, sw: Sweep)
    requires Shape(cfg, sh)
  {
    var (sh', pc') := NextEvict(cfg, sh, ev, sw);
    var w := Touched(cfg, Evict(ev, sw), Go(false));
    OccupancyKept(sh, Evict(ev, sw), sh', pc', w) && UsageKept(sh, Evict(ev, sw), sh', pc', w)
  }

  lemma AccountStepFree(cfg: Config, sh: Shared, ev: EvictAt, sw: Sweep)
    requires Shape(cfg, sh) && Grounded(cfg, sh, Evict(ev, sw)) && (ev.EvRollback? || ev.EvFree?)
    ensures AccountsKept(cfg, sh, ev, sw)
  {
    hide Probe, ClockSlot, Pow2, U, Cong, AfterSlot;
    AfterSlotKeeps(cfg, sh, sw);
    CongRefl(sh.usage);
    GroundedAt(cfg, sh, Evict(ev, sw), ClockSlot(cfg, sw.ptr, sw.i));
  }

  lemma AccountStepAge(cfg: Config, sh: Shared, seen: Meta, sw: Sweep)
    requires Shape(cfg, sh) && Guarded(Evict(EvAge(seen), sw))
    ensures AccountsKept(cfg, sh, EvAge(seen), sw)
  {
    hide Probe, ClockSlot, Pow2, U, Cong, AfterSlot;
    AfterSlotKeeps(cfg, sh, sw);
    CongRefl(sh.usage);
  }

  lemma AccountStepWalk(cfg: Config, sh: Shared, ev: EvictAt, sw: Sweep)
    requires Shape(cfg, sh) && (ev.EvStart? || ev.EvAdvance? || ev.EvLook? || ev.EvDone?) && SweepOk(sw)
    ensures AccountsKept(cfg, sh, ev, sw)
  {
    hide Probe, ClockSlot, Pow2, U, Cong, AfterSlot;
    AfterSlotKeeps(cfg, sh, sw);
    AfterSlotKeeps(cfg, sh, sw.(pinned := sw.pinned + 1));
    CongRefl(sh.usage);
  }

  lemma AccountStepEvict(cfg: Config, sh: Shared, ev: EvictAt, sw: Sweep)
    requires Shape(cfg, sh) && Local(cfg, Evict(ev, sw)) && Grounded(cfg, sh, Evict(ev, sw))
    ensures AccountsKept(cfg, sh, ev, sw)
  {
    hide NextEvict, OccupancyKept, UsageKept, Grounded, ClockSlot;
    match ev
    case EvTake(seen) => AccountStepTake(cfg, sh, seen, sw);
    case EvSettle => AccountStepSettle(cfg, sh, sw);
    case EvAge(seen) => AccountStepAge(cfg, sh, seen, sw);
    case EvFree => AccountStepFree(cfg, sh, ev, sw);
    case EvRollback(_, _) => AccountStepFree(cfg, sh, ev, sw);
    case _ => AccountStepWalk(cfg, sh, ev, sw);
  }

  lemma AccountStepInsert(cfg: Config, sh: Shared, at: InsertAt, ins: Ins, i: nat)
    requires Shape(cfg, sh) && Local(cfg, Insert(at, ins, i)) && Pinned(cfg, sh, Insert(at, ins, i))
    requires Grounded(cfg, sh, Insert(at, ins, i))
    ensures var (sh', pc') := NextInsert(cfg, sh, at, ins, i);
      OccupancyKept(sh, Insert(at, ins, i), sh', pc', Touched(cfg, Insert(at, ins, i), Go(false)))
    ensures var (sh', pc') := NextInsert(cfg, sh, at, ins, i);
      UsageKept(sh, Insert(at, ins, i), sh', pc', Touched(cfg, Insert(at, ins, i), Go(false)))
  {
    hide Probe, ClockSlot, Pow2, U, Cong;
    var g := At(cfg, ins.key, i);
    GroundedAt(cfg, sh, Insert(at, ins, i), g);
    CongRefl(sh.usage);
  }

  lemma AccountStepUndo(cfg: Config, sh: Shared, un: UndoAt, ins: Ins)
    requires Shape(cfg, sh) && Local(cfg, Undo(un, ins)) && Pinned(cfg, sh, Undo(un, ins))
    requires Grounded(cfg, sh, Undo(un, ins))
    ensures var (sh', pc') := NextUndo(cfg, sh, un, ins);
      OccupancyKept(sh, Undo(un, ins), sh', pc', Touched(cfg, Undo(un, ins), Go(false)))
    ensures var (sh', pc') := NextUndo(cfg, sh, un, ins);
      UsageKept(sh, Undo(un, ins), sh', pc', Touched(cfg, Undo(un, ins), Go(false)))
  {
    hide Probe, ClockSlot, Pow2, U, Cong;
    CongRefl(sh.usage);
    CongU(sh.usage - ins.charge);
    CongU(sh.usage + ins.charge);
  }

  lemma AccountStepErase(cfg: Config, sh: Shared, er: EraseAt, key: Key, i: nat, spurious: bool)
    requires Shape(cfg, sh) && Local(cfg, Erase(er, key, i)) && Pinned(cfg, sh, Erase(er, key, i))
    requires Grounded(cfg, sh, Erase(er, key, i))
    ensures var (sh', pc') := NextErase(cfg, sh, er, key, i, spurious);
      OccupancyKept(sh, Erase(er, key, i), sh', pc', Touched(cfg, Erase(er, key, i), Go(false)))
    ensures var (sh', pc') := NextErase(cfg, sh, er, key, i, spurious);
      UsageKept(sh, Erase(er, key, i), sh', pc', Touched(cfg, Erase(er, key, i), Go(false)))
  {
    hide Probe, ClockSlot, Pow2, U, Cong;
    var g := At(cfg, key, i);
    GroundedAt(cfg, sh, Erase(er, key, i), g);
    CongRefl(sh.usage);
  }

  lemma AccountStepRemove(cfg: Config, sh: Shared, rm: RemoveAt, key: Key, i: nat, charge: nat)
    requires Shape(cfg, sh) && Local(cfg, Remove(rm, key, i, charge)) && Pinned(cfg, sh, Remove(rm, key, i, charge))
    requires Grounded(cfg, sh, Remove(rm, key, i, charge))
    ensures var (sh', pc') := NextRemove(cfg, sh, rm, key, i, charge);
      OccupancyKept(sh, Remove(rm, key, i, charge), sh', pc', Touched(cfg, Remove(rm, key, i, charge), Go(false)))
    ensures var (sh', pc') := NextRemove(cfg, sh, rm, key, i, charge);
      UsageKept(sh, Remove(rm, key, i, charge), sh', pc', Touched(cfg, Remove(rm, key, i, charge), Go(false)))
  {
    hide Probe, ClockSlot, Pow2, U, Cong;
    var g := At(cfg, key, i);
    GroundedAt(cfg, sh, Remove(rm, key, i, charge), g);
    CongRefl(sh.usage);
    CongU(sh.usage - charge);
  }

  lemma AccountStepRelease(cfg: Config, sh: Shared, rl: ReleaseAt, x: nat, spurious: bool)
    requires Shape(cfg, sh) && x < cfg.Size() && Local(cfg, Release(rl, x)) && Pinned(cfg, sh, Release(rl, x))
    requires Grounded(cfg, sh, Release(rl, x))
    ensures var (sh', pc') := NextRelease(cfg, sh, rl, x, spurious);
      OccupancyKept(sh, Release(rl, x), sh', pc', Touched(cfg, Release(rl, x), Go(false)))
    ensures var (sh', pc') := NextRelease(cfg, sh, rl, x, spurious);
      UsageKept(sh, Release(rl, x), sh', pc', Touched(cfg, Release(rl, x), Go(false)))
  {
    hide Probe, ClockSlot, Pow2, U, Cong;
    var g := x;
    GroundedAt(cfg, sh, Release(rl, x), g);
    CongRefl(sh.usage);
  }

  lemma AccountStepDrop(cfg: Config, sh: Shared, dr: DropAt, x: nat, charge: nat)
    requires Shape(cfg, sh) && x < cfg.Size() && Local(cfg, Drop(dr, x, charge))
    requires Pinned(cfg, sh, Drop(dr, x, charge)) && Grounded(cfg, sh, Drop(dr, x, charge))
    ensures var (sh', pc') := NextDrop(cfg, sh, dr, x, charge);
      OccupancyKept(sh, Drop(dr, x, charge), sh', pc', Touched(cfg, Drop(dr, x, charge), Go(false)))
    ensures var (sh', pc') := NextDrop(cfg, sh, dr, x, charge);
      UsageKept(sh, Drop(dr, x, charge), sh', pc', Touched(cfg, Drop(dr, x, charge), Go(false)))
  {
    hide Probe, ClockSlot, Pow2, U, Cong;
    var g := x;
    GroundedAt(cfg, sh, Drop(dr, x, charge), g);
    CongRefl(sh.usage);
    CongU(sh.usage - charge);
  }

  lemma AccountStepBegin(cfg: Config, sh: Shared, ch: Choice)
    requires Shape(cfg, sh) && Local(cfg, Idle) && Pinned(cfg, sh, Idle) && Grounded(cfg, sh, Idle)
    ensures var (sh', pc') := Begin(cfg, sh, ch); OccupancyKept(sh, Idle, sh', pc', Touched(cfg, Idle, ch))
    ensures var (sh', pc') := Begin(cfg, sh, ch); UsageKept(sh, Idle, sh', pc', Touched(cfg, Idle, ch))
  {
    hide Probe, ClockSlot, Pow2, U, Cong;
    CongRefl(sh.usage);
    if ch.DropStandalone? { CongU(sh.usage - ch.charge); }
  }

  lemma AccountStepDone(cfg: Config, sh: Shared, result: Option<nat>)
    requires Shape(cfg, sh) && Local(cfg, Done(result)) && Pinned(cfg, sh, Done(result))
    requires Grounded(cfg, sh, Done(result))
    ensures var (sh', pc') := (sh, Idle);
      OccupancyKept(sh, Done(result), sh', pc', Touched(cfg, Done(result), Go(false)))
    ensures var (sh', pc') := (sh, Idle); UsageKept(sh, Done(result), sh', pc', Touched(cfg, Done(result), Go(false)))
  {
    hide Probe, ClockSlot, Pow2, U, Cong;
    CongRefl(sh.usage);
  }

  lemma AccountStep(cfg: Config, sh: Shared, pc: Pc, ch: Choice)
    requires Shape(cfg, sh) && InRange(cfg, pc) && Local(cfg, pc) && Pinned(cfg, sh, pc) && Grounded(cfg, sh, pc)
    ensures var (sh', pc') := Next(cfg, sh, pc, ch); OccupancyKept(sh, pc, sh', pc', Touched(cfg, pc, ch))
    ensures var (sh', pc') := Next(cfg, sh, pc, ch); UsageKept(sh, pc, sh', pc', Touched(cfg, pc, ch))
  {
    hide NextLookup, NextCharge, NextEvict, NextInsert, NextUndo, NextErase, NextRemove, NextRelease, NextDrop;
    hide Begin, Local, Pinned, Grounded, OccupancyKept, UsageKept;
    var spurious := ch.Go? && ch.spurious;
    match pc
    case Idle => AccountStepBegin(cfg, sh, ch);
    case Done(result) => AccountStepDone(cfg, sh, result);
    case Lookup(lk, key, i) => AccountStepLookup(cfg, sh, lk, key, i);
    case Charge(c, ins) => AccountStepCharge(cfg, sh, c, ins, spurious);
    case Evict(ev, sw) => AccountStepEvict(cfg, sh, ev, sw);
    case Insert(at, ins, i) => AccountStepInsert(cfg, sh, at, ins, i);
    case Undo(un, ins) => AccountStepUndo(cfg, sh, un, ins);
    case Erase(er, key, i) => AccountStepErase(cfg, sh, er, key, i, spurious);
    case Remove(rm, key, i, charge) => AccountStepRemove(cfg, sh, rm, key, i, charge);
    case Release(rl, x) => AccountStepRelease(cfg, sh, rl, x, spurious);
    case Drop(dr, x, charge) => AccountStepDrop(cfg, sh, dr, x, charge);
  }

  // -- displacements -----------------------------------------------------------

  lemma DispStepLookup(cfg: Config, sh: Shared, lk: LookupAt, key: Key, i: nat, s: nat)
    requires Shape(cfg, sh) && Local(cfg, Lookup(lk, key, i)) && Pinned(cfg, sh, Lookup(lk, key, i))
    requires Grounded(cfg, sh, Lookup(lk, key, i)) && s < cfg.Size()
    ensures var (sh', pc') := NextLookup(cfg, sh, lk, key, i);
      DispKept(cfg, sh, Lookup(lk, key, i), sh', pc', Touched(cfg, Lookup(lk, key, i), Go(false)), s)
  {
    hide Probe, ClockSlot, U;
    var g := At(cfg, key, i);
    GroundedAt(cfg, sh, Lookup(lk, key, i), g);
  }

  lemma DispStepCharge(cfg: Config, sh: Shared, c: ChargeAt, ins: Ins, spurious: bool, s: nat)
    requires Shape(cfg, sh) && Local(cfg, Charge(c, ins)) && Pinned(cfg, sh, Charge(c, ins))
    requires Grounded(cfg, sh, Charge(c, ins)) && s < cfg.Size()
    ensures var (sh', pc') := NextCharge(cfg, sh, c, ins, spurious);
      DispKept(cfg, sh, Charge(c, ins), sh', pc', Touched(cfg, Charge(c, ins), Go(false)), s)
  {
    hide Probe, ClockSlot, U;
  }

  lemma DispStepEvict(cfg: Config, sh: Shared, ev: EvictAt, sw: Sweep, s: nat)
    requires Shape(cfg, sh) && Local(cfg, Evict(ev, sw)) && Pinned(cfg, sh, Evict(ev, sw))
    requires Grounded(cfg, sh, Evict(ev, sw)) && s < cfg.Size()
    ensures var (sh', pc') := NextEvict(cfg, sh, ev, sw);
      DispKept(cfg, sh, Evict(ev, sw), sh', pc', Touched(cfg, Evict(ev, sw), Go(false)), s)
  {
    hide Probe, ClockSlot, U, EffortExceeded;
    var g := ClockSlot(cfg, sw.ptr, sw.i);
    GroundedAt(cfg, sh, Evict(ev, sw), g);
  }

  lemma DispStepInsert(cfg: Config, sh: Shared, at: InsertAt, ins: Ins, i: nat, s: nat)
    requires Shape(cfg, sh) && Local(cfg, Insert(at, ins, i)) && Pinned(cfg, sh, Insert(at, ins, i))
    requires Grounded(cfg, sh, Insert(at, ins, i)) && s < cfg.Size()
    ensures var (sh', pc') := NextInsert(cfg, sh, at, ins, i);
      DispKept(cfg, sh, Insert(at, ins, i), sh', pc', Touched(cfg, Insert(at, ins, i), Go(false)), s)
  {
    hide Probe, ClockSlot, U;
    var g := At(cfg, ins.key, i);
    GroundedAt(cfg, sh, Insert(at, ins, i), g);
    TouchesSnoc(ins.key, 0, i, s, cfg.Size());
  }

  lemma DispStepUndo(cfg: Config, sh: Shared, un: UndoAt, ins: Ins, s: nat)
    requires Shape(cfg, sh) && Local(cfg, Undo(un, ins)) && Pinned(cfg, sh, Undo(un, ins))
    requires Grounded(cfg, sh, Undo(un, ins)) && s < cfg.Size()
    ensures var (sh', pc') := NextUndo(cfg, sh, un, ins);
      DispKept(cfg, sh, Undo(un, ins), sh', pc', Touched(cfg, Undo(un, ins), Go(false)), s)
  {
    hide Probe, ClockSlot, U;
    if un.UnRollback? && un.j < un.stop { ProbesDistinct(ins.key, un.j, un.stop, cfg.bits); }
  }

  lemma DispStepErase(cfg: Config, sh: Shared, er: EraseAt, key: Key, i: nat, spurious: bool, s: nat)
    requires Shape(cfg, sh) && Local(cfg, Erase(er, key, i)) && Pinned(cfg, sh, Erase(er, key, i))
    requires Grounded(cfg, sh, Erase(er, key, i)) && s < cfg.Size()
    ensures var (sh', pc') := NextErase(cfg, sh, er, key, i, spurious);
      DispKept(cfg, sh, Erase(er, key, i), sh', pc', Touched(cfg, Erase(er, key, i), Go(false)), s)
  {
    hide Probe, ClockSlot, U;
    var g := At(cfg, key, i);
    GroundedAt(cfg, sh, Erase(er, key, i), g);
  }

  lemma DispStepRemove(cfg: Config, sh: Shared, rm: RemoveAt, key: Key, i: nat, charge: nat, s: nat)
    requires Shape(cfg, sh) && Local(cfg, Remove(rm, key, i, charge)) && Pinned(cfg, sh, Remove(rm, key, i, charge))
    requires Grounded(cfg, sh, Remove(rm, key, i, charge)) && s < cfg.Size()
    ensures var (sh', pc') := NextRemove(cfg, sh, rm, key, i, charge);
      DispKept(cfg, sh, Remove(rm, key, i, charge), sh', pc', Touched(cfg, Remove(rm, key, i, charge), Go(false)), s)
  {
    hide Probe, ClockSlot, U;
    var g := At(cfg, key, i);
    GroundedAt(cfg, sh, Remove(rm, key, i, charge), g);
    if rm.RmRollback? && rm.j < i { ProbesDistinct(key, rm.j, i, cfg.bits); }
  }

  lemma DispStepRelease(cfg: Config, sh: Shared, rl: ReleaseAt, x: nat, spurious: bool, s: nat)
    requires Shape(cfg, sh) && x < cfg.Size() && Local(cfg, Release(rl, x)) && Pinned(cfg, sh, Release(rl, x))
    requires Grounded(cfg, sh, Release(rl, x)) && s < cfg.Size()
    ensures var (sh', pc') := NextRelease(cfg, sh, rl, x, spurious);
      DispKept(cfg, sh, Release(rl, x), sh', pc', Touched(cfg, Release(rl, x), Go(false)), s)
  {
    hide Probe, ClockSlot, U;
    var g := x;
    GroundedAt(cfg, sh, Release(rl, x), g);
  }

  lemma DispStepDrop(cfg: Config, sh: Shared, dr: DropAt, x: nat, charge: nat, s: nat)
    requires Shape(cfg, sh) && x < cfg.Size() && Local(cfg, Drop(dr, x, charge))
    requires Pinned(cfg, sh, Drop(dr, x, charge)) && Grounded(cfg, sh, Drop(dr, x, charge)) && s < cfg.Size()
    ensures var (sh', pc') := NextDrop(cfg, sh, dr, x, charge);
      DispKept(cfg, sh, Drop(dr, x, charge), sh', pc', Touched(cfg, Drop(dr, x, charge), Go(false)), s)
  {
    hide Probe, ClockSlot, U;
    var g := x;
    GroundedAt(cfg, sh, Drop(dr, x, charge), g);
    if dr.DrRollback? { assert Probe(dr.key, dr.j, Pow2(cfg.bits)) == At(cfg, dr.key, dr.j); }
  }

  lemma DispStepBegin(cfg: Config, sh: Shared, ch: Choice, s: nat)
    requires Shape(cfg, sh) && Local(cfg, Idle) && Pinned(cfg, sh, Idle) && Grounded(cfg, sh, Idle) && s < cfg.Size()
    ensures var (sh', pc') := Begin(cfg, sh, ch); DispKept(cfg, sh, Idle, sh', pc', Touched(cfg, Idle, ch), s)
  {
    hide Probe, ClockSlot, U;
  }

  lemma DispStepDone(cfg: Config, sh: Shared, result: Option<nat>, s: nat)
    requires Shape(cfg, sh) && Local(cfg, Done(result)) && Pinned(cfg, sh, Done(result))
    requires Grounded(cfg, sh, Done(result)) && s < cfg.Size()
    ensures var (sh', pc') := (sh, Idle);
      DispKept(cfg, sh, Done(result), sh', pc', Touched(cfg, Done(result), Go(false)), s)
  {
    hide Probe, ClockSlot, U;
  }

  lemma DispStep(cfg: Config, sh: Shared, pc: Pc, ch: Choice, s: nat)
    requires Shape(cfg, sh) && InRange(cfg, pc) && Local(cfg, pc) && Pinned(cfg, sh, pc) && Grounded(cfg, sh, pc)
    requires s < cfg.Size()
    ensures var (sh', pc') := Next(cfg, sh, pc, ch); DispKept(cfg, sh, pc, sh', pc', Touched(cfg, pc, ch), s)
  {
    hide NextLookup, NextCharge, NextEvict, NextInsert, NextUndo, NextErase, NextRemove, NextRelease, NextDrop;
    hide Begin, Local, Pinned, Grounded, DispKept, Pow2;
    var spurious := ch.Go? && ch.spurious;
    match pc
    case Idle => DispStepBegin(cfg, sh, ch, s);
    case Done(result) => DispStepDone(cfg, sh, result, s);
    case Lookup(lk, key, i) => DispStepLookup(cfg, sh, lk, key, i, s);
    case Charge(c, ins) => DispStepCharge(cfg, sh, c, ins, spurious, s);
    case Evict(ev, sw) => DispStepEvict(cfg, sh, ev, sw, s);
    case Insert(at, ins, i) => DispStepInsert(cfg, sh, at, ins, i, s);
    case Undo(un, ins) => DispStepUndo(cfg, sh, un, ins, s);
    case Erase(er, key, i) => DispStepErase(cfg, sh, er, key, i, spurious, s);
    case Remove(rm, key, i, charge) => DispStepRemove(cfg, sh, rm, key, i, charge, s);
    case Release(rl, x) => DispStepRelease(cfg, sh, rl, x, spurious, s);
    case Drop(dr, x, charge) => DispStepDrop(cfg, sh, dr, x, charge, s);
  }
}
