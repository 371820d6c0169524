// strict_capacity_limit = true with a fixed capacity: usage_ never exceeds
// capacity_, in every interleaving of charging, eviction, insertion, erasure
// and release.
module ClockCapacity {
  import opened Probing
  import opened Sums
  import opened ClockTable
  import opened ClockLedger
  import opened ClockAccounts
  import opened ClockInvariant
  import opened ClockTheorems

  const HALF_WORD: nat := 0x8000_0000_0000_0000

  // What a thread that only ever saw strict mode and capacity `cap` knows.
  predicate StrictPc(pc: Pc, cap: nat) {
    match pc
    case Charge(c, ins) =>
      && !c.ChLaxUsage? && !c.ChLaxCapacity?
      && (c.ChUsage? ==> c.cap == cap && ins.charge <= cap)
      && (c.ChCas? ==> c.cap == cap && c.was <= cap && ins.charge <= cap)
    case Evict(_, sw) => sw.strict && sw.taken >= 0 && sw.taken + sw.need == sw.ins.charge
    case Undo(un, _) => !un.UnForce? && (un.UnOccupancy? ==> !un.why.ChargeFailed?)
    case _ => true
  }

  // The mode settings that the theorem fixes.
  predicate StrictAt(sh: Shared, cap: nat) {
    sh.strict && sh.capacity == cap
  }

  // How much a step adds to the total of all accounts: nothing, except for the
  // charging CAS, which raises the total from usage_ to at most the capacity.
  predicate NeverGrows(sh: Shared, pc: Pc, sh': Shared, pc': Pc, w: nat, cap: nat) {
    && w < |sh.slots| && w < |sh'.slots|
    && var grows :=
         EntryCharge(sh'.slots[w]) - EntryCharge(sh.slots[w]) + sh'.loose - sh.loose + Credit(pc') - Credit(pc);
       (grows <= 0 || sh.usage + grows <= cap)
  }

  // As long as the sum does not wrap around, and only then, the CAS takes what fits and
  // exactly the rest is still needed.
  lemma NewUsageExact(was: nat, charge: nat, cap: nat)
    requires was <= cap && charge <= cap < WORD
    ensures NewUsage(was, charge, cap) <= cap
    ensures was + charge < WORD <==> was <= NewUsage(was, charge, cap)
    ensures was + charge < WORD ==>
      U(was + charge - NewUsage(was, charge, cap)) == was + charge - NewUsage(was, charge, cap)
  {
  }

  // -- one step in strict mode ---------------------------------------------------

  lemma StrictStepLookup(cfg: Config, sh: Shared, lk: LookupAt, key: Key, i: nat, cap: nat)
    requires Shape(cfg, sh) && Local(cfg, Lookup(lk, key, i)) && Pinned(cfg, sh, Lookup(lk, key, i))
    requires Grounded(cfg, sh, Lookup(lk, key, i))
    requires cap < HALF_WORD && sh.usage <= cap && StrictAt(sh, cap) && StrictPc(Lookup(lk, key, i), cap)
    ensures var (sh', pc') := NextLookup(cfg, sh, lk, key, i); StrictAt(sh', cap) ==> StrictPc(pc', cap)
    ensures var (sh', pc') := NextLookup(cfg, sh, lk, key, i); sh'.usage < WORD
    ensures var (sh', pc') := NextLookup(cfg, sh, lk, key, i);
      StrictAt(sh', cap) ==>
        NeverGrows(sh, Lookup(lk, key, i), sh', pc', Touched(cfg, Lookup(lk, key, i), Go(false)), cap)
  {
    hide Probe, ClockSlot, Pow2, PosOf, Touches;
    var g := At(cfg, key, i);
    GroundedAt(cfg, sh, Lookup(lk, key, i), g);
  }

  lemma StrictStepCharge(cfg: Config, sh: Shared, c: ChargeAt, ins: Ins, spurious: bool, cap: nat)
    requires Shape(cfg, sh) && Local(cfg, Charge(c, ins)) && Pinned(cfg, sh, Charge(c, ins))
    requires Grounded(cfg, sh, Charge(c, ins))
    requires cap < HALF_WORD && sh.usage <= cap && StrictAt(sh, cap) && StrictPc(Charge(c, ins), cap)
    ensures var (sh', pc') := NextCharge(cfg, sh, c, ins, spurious); StrictAt(sh', cap) ==> StrictPc(pc', cap)
    ensures var (sh', pc') := NextCharge(cfg, sh, c, ins, spurious); sh'.usage < WORD
    ensures var (sh', pc') := NextCharge(cfg, sh, c, ins, spurious);
      StrictAt(sh', cap) ==> NeverGrows(sh, Charge(c, ins), sh', pc', Touched(cfg, Charge(c, ins), Go(false)), cap)
  {
    hide Probe, ClockSlot, Pow2, PosOf, Touches, U, NewUsage;
    if c.ChCas? { NewUsageExact(c.was, ins.charge, cap); }
  }

  lemma StrictStepEvict(cfg: Config, sh: Shared, ev: EvictAt, sw: Sweep, cap: nat)
    requires Shape(cfg, sh) && Local(cfg, Evict(ev, sw)) && Pinned(cfg, sh, Evict(ev, sw))
    requires Grounded(cfg, sh, Evict(ev, sw))
    requires cap < HALF_WORD && sh.usage <= cap && StrictAt(sh, cap) && StrictPc(Evict(ev, sw), cap)
    ensures var (sh', pc') := NextEvict(cfg, sh, ev, sw); StrictAt(sh', cap) ==> StrictPc(pc', cap)
    ensures var (sh', pc') := NextEvict(cfg, sh, ev, sw); sh'.usage < WORD
    ensures var (sh', pc') := NextEvict(cfg, sh, ev, sw);
      StrictAt(sh', cap) ==> NeverGrows(sh, Evict(ev, sw), sh', pc', Touched(cfg, Evict(ev, sw), Go(false)), cap)
  {
    hide Probe, ClockSlot, Pow2, PosOf, Touches, EffortExceeded;
    var g := ClockSlot(cfg, sw.ptr, sw.i);
    GroundedAt(cfg, sh, Evict(ev, sw), g);
  }

  lemma StrictStepInsert(cfg: Config, sh: Shared, at: InsertAt, ins: Ins, i: nat, cap: nat)
    requires Shape(cfg, sh) && Local(cfg, Insert(at, ins, i)) && Pinned(cfg, sh, Insert(at, ins, i))
    requires Grounded(cfg, sh, Insert(at, ins, i))
    requires cap < HALF_WORD && sh.usage <= cap && StrictAt(sh, cap) && StrictPc(Insert(at, ins, i), cap)
    ensures var (sh', pc') := NextInsert(cfg, sh, at, ins, i); StrictAt(sh', cap) ==> StrictPc(pc', cap)
    ensures var (sh', pc') := NextInsert(cfg, sh, at, ins, i); sh'.usage < WORD
    ensures var (sh', pc') := NextInsert(cfg, sh, at, ins, i);
      StrictAt(sh', cap) ==>
        NeverGrows(sh, Insert(at, ins, i), sh', pc', Touched(cfg, Insert(at, ins, i), Go(false)), cap)
  {
    hide Probe, ClockSlot, Pow2, PosOf, Touches;
    var g := At(cfg, ins.key, i);
    GroundedAt(cfg, sh, Insert(at, ins, i), g);
  }

  lemma StrictStepUndo(cfg: Config, sh: Shared, un: UndoAt, ins: Ins, cap: nat)
    requires Shape(cfg, sh) && Local(cfg, Undo(un, ins)) && Pinned(cfg, sh, Undo(un, ins))
    requires Grounded(cfg, sh, Undo(un, ins))
    requires cap < HALF_WORD && sh.usage <= cap && StrictAt(sh, cap) && StrictPc(Undo(un, ins), cap)
    ensures var (sh', pc') := NextUndo(cfg, sh, un, ins); StrictAt(sh', cap) ==> StrictPc(pc', cap)
    ensures var (sh', pc') := NextUndo(cfg, sh, un, ins); sh'.usage < WORD
    ensures var (sh', pc') := NextUndo(cfg, sh, un, ins);
      StrictAt(sh', cap) ==> NeverGrows(sh, Undo(un, ins), sh', pc', Touched(cfg, Undo(un, ins), Go(false)), cap)
  {
    hide Probe, ClockSlot, Pow2, PosOf, Touches;
  }

  lemma StrictStepErase(cfg: Config, sh: Shared, er: EraseAt, key: Key, i: nat, spurious: bool, cap: nat)
    requires Shape(cfg, sh) && Local(cfg, Erase(er, key, i)) && Pinned(cfg, sh, Erase(er, key, i))
    requires Grounded(cfg, sh, Erase(er, key, i))
    requires cap < HALF_WORD && sh.usage <= cap && StrictAt(sh, cap) && StrictPc(Erase(er, key, i), cap)
    ensures var (sh', pc') := NextErase(cfg, sh, er, key, i, spurious); StrictAt(sh', cap) ==> StrictPc(pc', cap)
    ensures var (sh', pc') := NextErase(cfg, sh, er, key, i, spurious); sh'.usage < WORD
    ensures var (sh', pc') := NextErase(cfg, sh, er, key, i, spurious);
      StrictAt(sh', cap) ==>
        NeverGrows(sh, Erase(er, key, i), sh', pc', Touched(cfg, Erase(er, key, i), Go(false)), cap)
  {
    hide Probe, ClockSlot, Pow2, PosOf, Touches;
    var g := At(cfg, key, i);
    GroundedAt(cfg, sh, Erase(er, key, i), g);
  }

  lemma StrictStepRemove(cfg: Config, sh: Shared, rm: RemoveAt, key: Key, i: nat, charge: nat, cap: nat)
    requires Shape(cfg, sh) && Local(cfg, Remove(rm, key, i, charge)) && Pinned(cfg, sh, Remove(rm, key, i, charge))
    requires Grounded(cfg, sh, Remove(rm, key, i, charge))
    requires cap < HALF_WORD && sh.usage <= cap && StrictAt(sh, cap) && StrictPc(Remove(rm, key, i, charge), cap)
    ensures var (sh', pc') := NextRemove(cfg, sh, rm, key, i, charge); StrictAt(sh', cap) ==> StrictPc(pc', cap)
    ensures var (sh', pc') := NextRemove(cfg, sh, rm, key, i, charge); sh'.usage < WORD
    ensures var (sh', pc') := NextRemove(cfg, sh, rm, key, i, charge);
      StrictAt(sh', cap) ==>
        NeverGrows(sh, Remove(rm, key, i, charge), sh', pc', Touched(cfg, Remove(rm, key, i, charge), Go(false)), cap)
  {
    hide Probe, ClockSlot, Pow2, PosOf, Touches;
    var g := At(cfg, key, i);
    GroundedAt(cfg, sh, Remove(rm, key, i, charge), g);
  }

  lemma StrictStepRelease(cfg: Config, sh: Shared, rl: ReleaseAt, x: nat, spurious: bool, cap: nat)
    requires Shape(cfg, sh) && x < cfg.Size() && Local(cfg, Release(rl, x)) && Pinned(cfg, sh, Release(rl, x))
    requires Grounded(cfg, sh, Release(rl, x))
    requires cap < HALF_WORD && sh.usage <= cap && StrictAt(sh, cap) && StrictPc(Release(rl, x), cap)
    ensures var (sh', pc') := NextRelease(cfg, sh, rl, x, spurious); StrictAt(sh', cap) ==> StrictPc(pc', cap)
    ensures var (sh', pc') := NextRelease(cfg, sh, rl, x, spurious); sh'.usage < WORD
    ensures var (sh', pc') := NextRelease(cfg, sh, rl, x, spurious);
      StrictAt(sh', cap) ==> NeverGrows(sh, Release(rl, x), sh', pc', Touched(cfg, Release(rl, x), Go(false)), cap)
  {
    hide Probe, ClockSlot, Pow2, PosOf, Touches;
    var g := x;
    GroundedAt(cfg, sh, Release(rl, x), g);
  }

  lemma StrictStepDrop(cfg: Config, sh: Shared, dr: DropAt, x: nat, charge: nat, cap: nat)
    requires Shape(cfg, sh) && x < cfg.Size() && Local(cfg, Drop(dr, x, charge))
    requires Pinned(cfg, sh, Drop(dr, x, charge)) && Grounded(cfg, sh, Drop(dr, x, charge))
    requires cap < HALF_WORD && sh.usage <= cap && StrictAt(sh, cap) && StrictPc(Drop(dr, x, charge), cap)
    ensures var (sh', pc') := NextDrop(cfg, sh, dr, x, charge); StrictAt(sh', cap) ==> StrictPc(pc', cap)
    ensures var (sh', pc') := NextDrop(cfg, sh, dr, x, charge); sh'.usage < WORD
    ensures var (sh', pc') := NextDrop(cfg, sh, dr, x, charge);
      StrictAt(sh', cap) ==>
        NeverGrows(sh, Drop(dr, x, charge), sh', pc', Touched(cfg, Drop(dr, x, charge), Go(false)), cap)
  {
    hide Probe, ClockSlot, Pow2, PosOf, Touches;
    var g := x;
    GroundedAt(cfg, sh, Drop(dr, x, charge), g);
  }

  lemma StrictStepBegin(cfg: Config, sh: Shared, ch: Choice, cap: nat)
    requires Shape(cfg, sh) && Local(cfg, Idle) && Pinned(cfg, sh, Idle) && Grounded(cfg, sh, Idle)
    requires cap < HALF_WORD && sh.usage <= cap && StrictAt(sh, cap) && StrictPc(Idle, cap)
    ensures var (sh', pc') := Begin(cfg, sh, ch); StrictAt(sh', cap) ==> StrictPc(pc', cap)
    ensures var (sh', pc') := Begin(cfg, sh, ch); sh'.usage < WORD
    ensures var (sh', pc') := Begin(cfg, sh, ch);
      StrictAt(sh', cap) ==> NeverGrows(sh, Idle, sh', pc', Touched(cfg, Idle, ch), cap)
  {
    hide Probe, ClockSlot, Pow2, PosOf, Touches;
  }

  lemma StrictStepDone(cfg: Config, sh: Shared, result: Option<nat>, cap: nat)
    requires Shape(cfg, sh) && Local(cfg, Done(result)) && Pinned(cfg, sh, Done(result))
    requires Grounded(cfg, sh, Done(result))
    requires cap < HALF_WORD && sh.usage <= cap && StrictAt(sh, cap) && StrictPc(Done(result), cap)
    ensures var (sh', pc') := (sh, Idle); StrictAt(sh', cap) ==> StrictPc(pc', cap)
    ensures var (sh', pc') := (sh, Idle); sh'.usage < WORD
    ensures var (sh', pc') := (sh, Idle);
      StrictAt(sh', cap) ==> NeverGrows(sh, Done(result), sh', pc', Touched(cfg, Done(result), Go(false)), cap)
  {
    hide Probe, ClockSlot, Pow2, PosOf, Touches;
  }

  lemma StrictStep(cfg: Config, sh: Shared, pc: Pc, ch: Choice, cap: nat)
    requires Shape(cfg, sh) && InRange(cfg, pc) && Local(cfg, pc) && Pinned(cfg, sh, pc) && Grounded(cfg, sh, pc)
    requires cap < HALF_WORD && sh.usage <= cap && StrictAt(sh, cap) && StrictPc(pc, cap)
    ensures var (sh', pc') := Next(cfg, sh, pc, ch); StrictAt(sh', cap) ==> StrictPc(pc', cap)
    ensures var (sh', pc') := Next(cfg, sh, pc, ch); sh'.usage < WORD
    ensures var (sh', pc') := Next(cfg, sh, pc, ch);
      StrictAt(sh', cap) ==> NeverGrows(sh, pc, sh', pc', Touched(cfg, pc, ch), cap)
  {
    hide NextLookup, NextCharge, NextEvict, NextInsert, NextUndo, NextErase, NextRemove, NextRelease, NextDrop;
    hide Begin, Local, Pinned, Grounded, StrictPc, NeverGrows;
    var spurious := ch.Go? && ch.spurious;
    match pc
    case Idle => StrictStepBegin(cfg, sh, ch, cap);
    case Done(result) => StrictStepDone(cfg, sh, result, cap);
    case Lookup(lk, key, i) => StrictStepLookup(cfg, sh, lk, key, i, cap);
    case Charge(c, ins) => StrictStepCharge(cfg, sh, c, ins, spurious, cap);
    case Evict(ev, sw) => StrictStepEvict(cfg, sh, ev, sw, cap);
    case Insert(at, ins, i) => StrictStepInsert(cfg, sh, at, ins, i, cap);
    case Undo(un, ins) => StrictStepUndo(cfg, sh, un, ins, cap);
    case Erase(er, key, i) => StrictStepErase(cfg, sh, er, key, i, spurious, cap);
    case Remove(rm, key, i, charge) => StrictStepRemove(cfg, sh, rm, key, i, charge, cap);
    case Release(rl, x) => StrictStepRelease(cfg, sh, rl, x, spurious, cap);
    case Drop(dr, x, charge) => StrictStepDrop(cfg, sh, dr, x, charge, cap);
  }

  // -- all steps --------------------------------------------------------------------

  ghost predicate StrictInv(cfg: Config, st: State, cap: nat) {
    && Inv(cfg, st)
    && StrictAt(st.sh, cap)
    && st.sh.usage == TotalCharge(cfg, st) <= cap
    && forall t :: 0 <= t < |st.threads| ==> StrictPc(st.threads[t], cap)
  }

  lemma TotalNonNegative(cfg: Config, st: State, cap: nat)
    requires forall t :: 0 <= t < |st.threads| ==> StrictPc(st.threads[t], cap)
    ensures TotalCharge(cfg, st) >= 0
  {
    SumNonNegative(SlotWeights(ChargeOf(), st.sh.slots));
    SumNonNegative(Accounts(CreditOf(), st.threads));
  }

  // usage_ is the exact total of all charges and stays within the capacity.
  lemma StrictInvStep(cfg: Config, st: State, t: nat, ch: Choice, cap: nat)
    requires StrictInv(cfg, st, cap) && cap < HALF_WORD && Small(st.sh) && t < |st.threads|
    requires StrictAt(Step(cfg, st, t, ch).sh, cap)
    ensures StrictInv(cfg, Step(cfg, st, t, ch), cap)
  {
    hide Next, Touched, Local, Pinned, Displacements, Protocol, Cong;
    var pc := st.threads[t];
    var (sh', pc') := Next(cfg, st.sh, pc, ch);
    var st' := Step(cfg, st, t, ch);
    Grounding(cfg, st, t);
    DataStep(cfg, st.sh, pc, ch);
    StrictStep(cfg, st.sh, pc, ch, cap);
    SlotSumStep(ChargeOf(), st.sh.slots, sh'.slots, Touched(cfg, pc, ch));
    ThreadSumStep(CreditOf(), st.threads, t, pc');
    TotalNonNegative(cfg, st', cap);
    InvStep(cfg, st, t, ch);
    CongExact(sh'.usage, TotalCharge(cfg, st'));
  }

  lemma {:induction false} StrictCapacityHolds(
      cfg: Config, run: seq<State>, sched: seq<(nat, Choice)>, cap: nat, k: nat)
    requires IsRun(cfg, run, sched) && Init(cfg, run[0]) && k < |run|
    requires cfg.metadata <= cap < HALF_WORD
    requires forall j :: 0 <= j < |run| ==> StrictAt(run[j].sh, cap)
    ensures run[k].sh.usage == TotalCharge(cfg, run[k]) <= run[k].sh.capacity
    ensures StrictInv(cfg, run[k], cap)
  {
    if k == 0 {
      InitInv(cfg, run[0]);
      SumZero(Accounts(CreditOf(), run[0].threads));
      SumZero(SlotWeights(ChargeOf(), run[0].sh.slots));
    } else {
      StrictCapacityHolds(cfg, run, sched, cap, k - 1);
      assert run[k - 1 + 1] == Step(cfg, run[k - 1], sched[k - 1].0, sched[k - 1].1);
      assert StrictAt(run[k].sh, cap);
      StrictInvStep(cfg, run[k - 1], sched[k - 1].0, sched[k - 1].1, cap);
    }
  }
}
