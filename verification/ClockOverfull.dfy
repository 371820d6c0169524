// strict_capacity_limit = true with a fixed capacity below the charge of the table
// itself: no entry with a charge is ever accepted, in every interleaving.
module ClockOverfull {
  import opened Probing
  import opened Sums
  import opened ClockTable
  import opened ClockLedger
  import opened ClockAccounts
  import opened ClockInvariant
  import opened ClockTheorems
  import opened ClockCapacity

  // What a thread that only ever saw this mode and capacity knows.
  predicate OverPc(pc: Pc, cap: nat, metadata: nat) {
    match pc
    case Charge(c, ins) =>
      && !c.ChLaxUsage? && !c.ChLaxCapacity?
      && (c.ChUsage? ==> c.cap == cap && ins.charge <= cap)
      && (c.ChCas? ==> c.cap == cap && cap <= c.was <= metadata && ins.charge <= cap)
    case Evict(_, sw) => sw.strict && sw.taken <= 0 == sw.freedCharge && sw.taken + sw.need == sw.ins.charge
    case Insert(_, ins, _) => ins.charge == 0
    case Undo(un, ins) =>
      && !un.UnForce? && (un.UnOccupancy? ==> !un.why.ChargeFailed?)
      && (ins.charge == 0 || (un.UnOccupancy? && un.why.Refused?))
    case Remove(_, _, _, charge) => charge == 0
    case Drop(_, _, charge) => charge == 0
    case _ => true
  }

  predicate Uncharged(sh: Shared) {
    sh.loose == 0 && forall x :: 0 <= x < |sh.slots| ==> EntryCharge(sh.slots[x]) == 0
  }

  // One thread and the shared state, before and after its step.
  ghost predicate Ready(cfg: Config, sh: Shared, pc: Pc, cap: nat) {
    && Shape(cfg, sh) && InRange(cfg, pc) && Local(cfg, pc) && Pinned(cfg, sh, pc) && Grounded(cfg, sh, pc)
    && cap < cfg.metadata < HALF_WORD && StrictAt(sh, cap) && OverPc(pc, cap, cfg.metadata) && Uncharged(sh)
    && cap <= sh.usage <= cfg.metadata + Credit(pc)
  }

  predicate Kept(cfg: Config, sh: Shared, pc: Pc, sh': Shared, pc': Pc, w: nat, cap: nat) {
    && OverPc(pc', cap, cfg.metadata) && cap <= sh'.usage && sh'.usage - sh.usage == Credit(pc') - Credit(pc)
    && sh'.loose == 0 && w < |sh'.slots| && EntryCharge(sh'.slots[w]) == 0
  }

  // Whatever is asked for, the CAS cuts usage_ to the capacity, and the rest is needed.
  lemma CutsToCapacity(was: nat, charge: nat, cap: nat, metadata: nat)
    requires cap <= was <= metadata < HALF_WORD && charge <= cap
    ensures NewUsage(was, charge, cap) == cap && U(was + charge - cap) == was + charge - cap
  {
  }

  lemma OverCharge(cfg: Config, sh: Shared, c: ChargeAt, ins: Ins, spurious: bool, cap: nat)
    requires Ready(cfg, sh, Charge(c, ins), cap)
    ensures var (sh', pc') := NextCharge(cfg, sh, c, ins, spurious);
      StrictAt(sh', cap) ==> Kept(cfg, sh, Charge(c, ins), sh', pc', Touched(cfg, Charge(c, ins), Go(false)), cap)
  {
    hide Probe, ClockSlot, Pow2, PosOf, Touches, U, NewUsage;
    if c.ChCas? { CutsToCapacity(c.was, ins.charge, cap, cfg.metadata); }
  }

  lemma OverEvict(cfg: Config, sh: Shared, ev: EvictAt, sw: Sweep, cap: nat)
    requires Ready(cfg, sh, Evict(ev, sw), cap)
    ensures var (sh', pc') := NextEvict(cfg, sh, ev, sw);
      StrictAt(sh', cap) ==> Kept(cfg, sh, Evict(ev, sw), sh', pc', Touched(cfg, Evict(ev, sw), Go(false)), cap)
  {
    hide Probe, ClockSlot, Pow2, PosOf, Touches, EffortExceeded;
    GroundedAt(cfg, sh, Evict(ev, sw), ClockSlot(cfg, sw.ptr, sw.i));
  }

  lemma OverInsert(cfg: Config, sh: Shared, at: InsertAt, ins: Ins, i: nat, cap: nat)
    requires Ready(cfg, sh, Insert(at, ins, i), cap)
    ensures var (sh', pc') := NextInsert(cfg, sh, at, ins, i);
      StrictAt(sh', cap) ==>
        Kept(cfg, sh, Insert(at, ins, i), sh', pc', Touched(cfg, Insert(at, ins, i), Go(false)), cap)
  {
    hide Probe, ClockSlot, Pow2, PosOf, Touches;
    GroundedAt(cfg, sh, Insert(at, ins, i), At(cfg, ins.key, i));
  }

  lemma OverErase(cfg: Config, sh: Shared, er: EraseAt, key: Key, i: nat, spurious: bool, cap: nat)
    requires Ready(cfg, sh, Erase(er, key, i), cap)
    ensures var (sh', pc') := NextErase(cfg, sh, er, key, i, spurious);
      StrictAt(sh', cap) ==> Kept(cfg, sh, Erase(er, key, i), sh', pc', Touched(cfg, Erase(er, key, i), Go(false)), cap)
  {
    hide Probe, ClockSlot, Pow2, PosOf, Touches;
    GroundedAt(cfg, sh, Erase(er, key, i), At(cfg, key, i));
  }

  lemma OverRelease(cfg: Config, sh: Shared, rl: ReleaseAt, x: nat, spurious: bool, cap: nat)
    requires Ready(cfg, sh, Release(rl, x), cap)
    ensures var (sh', pc') := NextRelease(cfg, sh, rl, x, spurious);
      StrictAt(sh', cap) ==> Kept(cfg, sh, Release(rl, x), sh', pc', Touched(cfg, Release(rl, x), Go(false)), cap)
  {
    hide Probe, ClockSlot, Pow2, PosOf, Touches;
    GroundedAt(cfg, sh, Release(rl, x), x);
  }

  // The remaining steps charge nothing.
  lemma OverOther(cfg: Config, sh: Shared, pc: Pc, ch: Choice, cap: nat)
    requires Ready(cfg, sh, pc, cap)
    requires pc.Idle? || pc.Done? || pc.Lookup? || pc.Undo? || pc.Remove? || pc.Drop?
    ensures var (sh', pc') := Next(cfg, sh, pc, ch);
      StrictAt(sh', cap) ==> Kept(cfg, sh, pc, sh', pc', Touched(cfg, pc, ch), cap)
  {
    hide Probe, ClockSlot, Pow2, PosOf, Touches;
    hide NextCharge, NextEvict, NextInsert, NextErase, NextRelease;
  }

  lemma OverStep(cfg: Config, sh: Shared, pc: Pc, ch: Choice, cap: nat)
    requires Ready(cfg, sh, pc, cap)
    ensures var (sh', pc') := Next(cfg, sh, pc, ch);
      StrictAt(sh', cap) ==> Kept(cfg, sh, pc, sh', pc', Touched(cfg, pc, ch), cap)
  {
    hide NextLookup, NextCharge, NextEvict, NextInsert, NextUndo, NextErase, NextRemove, NextRelease, NextDrop;
    hide Begin, Local, Pinned, Grounded, OverPc, Kept;
    var spurious := ch.Go? && ch.spurious;
    match pc
    case Charge(c, ins) => OverCharge(cfg, sh, c, ins, spurious, cap);
    case Evict(ev, sw) => OverEvict(cfg, sh, ev, sw, cap);
    case Insert(at, ins, i) => OverInsert(cfg, sh, at, ins, i, cap);
    case Erase(er, key, i) => OverErase(cfg, sh, er, key, i, spurious, cap);
    case Release(rl, x) => OverRelease(cfg, sh, rl, x, spurious, cap);
    case _ => OverOther(cfg, sh, pc, ch, cap);
  }

  // -- all steps --------------------------------------------------------------------

  ghost predicate OverInv(cfg: Config, st: State, cap: nat) {
    && Inv(cfg, st) && StrictAt(st.sh, cap) && Uncharged(st.sh)
    && cap <= st.sh.usage == TotalCharge(cfg, st)
    && forall t :: 0 <= t < |st.threads| ==> OverPc(st.threads[t], cap, cfg.metadata)
  }

  lemma NoCredit(pc: Pc, cap: nat, metadata: nat)
    requires OverPc(pc, cap, metadata)
    ensures Credit(pc) <= 0
  {
  }

  // All that is charged is the table itself, less what the threads have cut off.
  lemma OverTotal(cfg: Config, st: State, cap: nat, t: nat)
    requires Uncharged(st.sh) && t < |st.threads|
    requires forall u :: 0 <= u < |st.threads| ==> OverPc(st.threads[u], cap, cfg.metadata)
    ensures TotalCharge(cfg, st) == cfg.metadata + ThreadSum(CreditOf(), st.threads)
    ensures TotalCharge(cfg, st) <= cfg.metadata + Credit(st.threads[t])
  {
    hide OverPc;
    forall u | 0 <= u < |st.threads| ensures Credit(st.threads[u]) <= 0 { NoCredit(st.threads[u], cap, cfg.metadata); }
    SumZero(SlotWeights(ChargeOf(), st.sh.slots));
    SumAtMost(Accounts(CreditOf(), st.threads), t);
  }

  lemma OverInvStep(cfg: Config, st: State, t: nat, ch: Choice, cap: nat)
    requires OverInv(cfg, st, cap) && cap < cfg.metadata < HALF_WORD && Small(st.sh) && t < |st.threads|
    requires StrictAt(Step(cfg, st, t, ch).sh, cap)
    ensures OverInv(cfg, Step(cfg, st, t, ch), cap)
  {
    hide Next, Touched, Local, Pinned, Displacements, Protocol, Cong, OverPc, Credit;
    var pc := st.threads[t];
    var (sh', pc') := Next(cfg, st.sh, pc, ch);
    var st' := Step(cfg, st, t, ch);
    Grounding(cfg, st, t);
    DataStep(cfg, st.sh, pc, ch);
    OverTotal(cfg, st, cap, t);
    OverStep(cfg, st.sh, pc, ch, cap);
    ThreadSumStep(CreditOf(), st.threads, t, pc');
    InvStep(cfg, st, t, ch);
    OverTotal(cfg, st', cap, t);
  }

  lemma {:induction false} OverRun(cfg: Config, run: seq<State>, sched: seq<(nat, Choice)>, cap: nat, k: nat)
    requires IsRun(cfg, run, sched) && Init(cfg, run[0]) && k < |run|
    requires cap < cfg.metadata < HALF_WORD
    requires forall j :: 0 <= j < |run| ==> StrictAt(run[j].sh, cap)
    ensures OverInv(cfg, run[k], cap)
  {
    hide Next, Small;
    if k == 0 {
      InitInv(cfg, run[0]);
      SumZero(Accounts(CreditOf(), run[0].threads));
      SumZero(SlotWeights(ChargeOf(), run[0].sh.slots));
    } else {
      OverRun(cfg, run, sched, cap, k - 1);
      assert run[k - 1 + 1] == Step(cfg, run[k - 1], sched[k - 1].0, sched[k - 1].1);
      assert StrictAt(run[k].sh, cap);
      OverInvStep(cfg, run[k - 1], sched[k - 1].0, sched[k - 1].1, cap);
    }
  }

  // No entry of the table, no standalone entry and no entry that is being removed has a
  // charge.
  lemma NothingFits(cfg: Config, run: seq<State>, sched: seq<(nat, Choice)>, cap: nat, k: nat)
    requires IsRun(cfg, run, sched) && Init(cfg, run[0]) && k < |run|
    requires cap < cfg.metadata < HALF_WORD
    requires forall j :: 0 <= j < |run| ==> StrictAt(run[j].sh, cap)
    ensures Uncharged(run[k].sh)
    ensures forall t :: 0 <= t < |run[k].threads| ==>
      (run[k].threads[t].Remove? || run[k].threads[t].Drop? ==> run[k].threads[t].charge == 0)
  {
    hide Inv, TotalCharge, Uncharged;
    OverRun(cfg, run, sched, cap, k);
    forall t | 0 <= t < |run[k].threads|
      ensures run[k].threads[t].Remove? || run[k].threads[t].Drop? ==> run[k].threads[t].charge == 0
    {
      assert OverPc(run[k].threads[t], cap, cfg.metadata);
    }
  }
}
