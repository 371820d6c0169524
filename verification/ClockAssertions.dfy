// The assertions that the source makes along the way hold in every interleaving, but for
// the one about usage_, which ClockUsage settles.
module ClockAssertions {
  import opened Probing
  import opened Sums
  import opened ClockTable
  import opened ClockLedger
  import opened ClockAccounts
  import opened ClockInvariant
  import opened ClockTheorems

  // What the source asserts about the words that a step reads. The assertions on
  // usage_ in ReclaimEntryUsage are treated below.
  predicate Asserted(cfg: Config, sh: Shared, pc: Pc, ch: Choice)
    requires Shape(cfg, sh) && InRange(cfg, pc)
  {
    match pc
    case Idle =>
      // Ref and Release: a shareable entry with references
      (ch.StartRelease? || ch.StartRef?) && ch.x < cfg.Size() && sh.users[ch.x] > 0 ==>
        Shareable(sh.slots[ch.x].meta) && sh.slots[ch.x].meta.acq != sh.slots[ch.x].meta.rel
        && Refcount(sh.slots[ch.x].meta) > 0
    // Unref: GetRefcount(old_meta) != 0
    case Lookup(lk, key, i) => lk.LkUnref? ==> Refcount(sh.slots[At(cfg, key, i)].meta) != 0
    case Release(rl, x) => rl.RlUnref? ==> Refcount(sh.slots[x].meta) != 0
    case Insert(at, ins, i) =>
      && (at.InUnref? ==> Refcount(sh.slots[At(cfg, ins.key, i)].meta) != 0)
      // FinishSlotInsert: the slot was under construction
      && (at.InPublish? ==> sh.slots[At(cfg, ins.key, i)].meta.state.Construction?)
    case Erase(er, key, i) =>
      && (er.ErUnref? ==> Refcount(sh.slots[At(cfg, key, i)].meta) != 0)
      // Erase: its own reference is counted, and the entry it takes has its key
      && (er.ErTake? ==> Refcount(er.seen) > 0 && sh.slots[At(cfg, key, i)].key == key)
    // MarkEmpty: the slot was under construction
    case Evict(ev, sw) =>
      && (ev.EvFree? ==> sh.slots[ClockSlot(cfg, sw.ptr, sw.i)].meta.state.Construction?)
      // Evict is asked for something; what was freed came from entries
      && (ev.EvStart? ==> sw.request > 0)
      && (ev.EvDone? && sw.freedCount == 0 ==> sw.freedCharge == 0)
      && (ev.EvSettle? && sw.strict && NextEvict(cfg, sh, ev, sw).1 == Accepted(sw.ins) ==> sw.freedCount > 0)
    case Remove(rm, key, i, _) =>
      && (rm.RmFree? ==> sh.slots[At(cfg, key, i)].meta.state.Construction?)
      // ReclaimEntryUsage: old_occupancy > 0
      && (rm.RmOccupancy? ==> sh.occupancy > 0)
    case Drop(dr, x, _) =>
      && (dr.DrFree? ==> sh.slots[x].meta.state.Construction?)
      && (dr.DrOccupancy? ==> sh.occupancy > 0)
    case _ => true
  }

  // What the thread remembers that these assertions need.
  predicate Remembers(pc: Pc) {
    && (pc.Erase? && pc.er.ErTake? ==> Refcount(pc.er.seen) > 0)
    && (pc.Evict? && (pc.ev.EvStart? || pc.sw.strict) ==> pc.sw.request > 0)
    && (pc.Evict? && pc.sw.strict ==> pc.sw.request == if pc.sw.needOcc && pc.sw.need == 0 then 1 else pc.sw.need)
  }

  // A reference that the thread holds on slot s is counted.
  lemma CountedHere(cfg: Config, st: State, t: nat, s: nat)
    requires Inv(cfg, st) && Small(st.sh) && t < |st.threads| && s < cfg.Size() && Refs(cfg, st.threads[t], s) > 0
    ensures st.sh.slots[s].meta.acq > st.sh.slots[s].meta.rel && Refcount(st.sh.slots[s].meta) > 0
  {
    hide Refs, Owns, Local, Pinned, Displacements, Usage, Occupancy, Refcount, Pow2;
    assert Protocol(cfg, st, s);
    RefsBound(cfg, st, t, s);
    RefcountExact(st.sh.slots[s].meta);
  }

  lemma UsersCounted(cfg: Config, st: State, s: nat)
    requires Inv(cfg, st) && Small(st.sh) && s < cfg.Size() && st.sh.users[s] > 0
    ensures Shareable(st.sh.slots[s].meta) && st.sh.slots[s].meta.acq > st.sh.slots[s].meta.rel
    ensures Refcount(st.sh.slots[s].meta) > 0
  {
    hide Refs, Owns, Local, Pinned, Displacements, Usage, Occupancy, Refcount, Pow2;
    assert Protocol(cfg, st, s);
    forall t | 0 <= t < |st.threads| ensures Accounts(RefsAt(cfg, s), st.threads)[t] >= 0 { RefsBound(cfg, st, t, s); }
    SumNonNegative(Accounts(RefsAt(cfg, s), st.threads));
    RefcountExact(st.sh.slots[s].meta);
  }

  // A thread that still has to give back a place finds occupancy_ positive.
  lemma SeatTaken(cfg: Config, st: State, t: nat)
    requires Inv(cfg, st) && t < |st.threads| && Seats(st.threads[t]) > 0
    ensures st.sh.occupancy > 0
  {
    hide Local, Pinned, Displacements, Protocol, Usage, Pow2;
    SumNonNegative(SlotWeights(CountOf(), st.sh.slots));
    SumBoundsEach(Accounts(SeatsOf(), st.threads), t);
  }

  // Only charging starts an eviction run.
  lemma NoSweep(cfg: Config, sh: Shared, pc: Pc, ch: Choice)
    requires Shape(cfg, sh) && InRange(cfg, pc) && !pc.Charge? && !pc.Evict?
    ensures !Next(cfg, sh, pc, ch).1.Evict?
    ensures !pc.Erase? ==> Remembers(Next(cfg, sh, pc, ch).1)
  {
    hide Refcount, U, Probe, ClockSlot, Pow2, NextCharge, NextEvict;
  }

  lemma RemembersCharge(cfg: Config, sh: Shared, c: ChargeAt, ins: Ins, spurious: bool)
    requires Shape(cfg, sh)
    ensures Remembers(NextCharge(cfg, sh, c, ins, spurious).1)
  {
    hide Refcount, U, Pow2, LaxNeed, NewUsage;
  }

  lemma RemembersEvict(cfg: Config, sh: Shared, ev: EvictAt, sw: Sweep)
    requires Shape(cfg, sh) && Remembers(Evict(ev, sw))
    ensures Remembers(NextEvict(cfg, sh, ev, sw).1)
  {
    hide Refcount, U, Probe, ClockSlot, Pow2, EffortExceeded;
  }

  lemma RemembersErase(cfg: Config, sh: Shared, er: EraseAt, key: Key, i: nat, spurious: bool)
    requires Shape(cfg, sh) && (er.ErHide? || er.ErTake? ==> Refcount(sh.slots[At(cfg, key, i)].meta) > 0)
    ensures Remembers(NextErase(cfg, sh, er, key, i, spurious).1)
  {
    hide Refcount, Probe, Pow2;
    HiddenCount(sh.slots[At(cfg, key, i)].meta);
  }

  lemma RemembersStep(cfg: Config, st: State, t: nat, ch: Choice)
    requires Inv(cfg, st) && Small(st.sh) && t < |st.threads| && Remembers(st.threads[t])
    ensures Remembers(Step(cfg, st, t, ch).threads[t])
  {
    hide Protocol, Displacements, Usage, Occupancy, Local, Pinned, Refcount, Remembers, Pow2, Small;
    hide NextCharge, NextEvict, NextErase, NextLookup, NextInsert, NextUndo, NextRemove, NextRelease, NextDrop, Begin;
    var pc := st.threads[t];
    if pc.Charge? {
      RemembersCharge(cfg, st.sh, pc.ch, pc.ins, ch.Go? && ch.spurious);
    } else if pc.Evict? {
      RemembersEvict(cfg, st.sh, pc.ev, pc.sw);
    } else if pc.Erase? {
      if pc.er.ErHide? || pc.er.ErTake? { CountedHere(cfg, st, t, At(cfg, pc.key, pc.i)); }
      RemembersErase(cfg, st.sh, pc.er, pc.key, pc.i, ch.Go? && ch.spurious);
    } else {
      NoSweep(cfg, st.sh, pc, ch);
    }
  }

  // Hiding an entry does not touch the counters.
  lemma HiddenCount(m: Meta)
    ensures Refcount(m.(state := Invisible)) == Refcount(m)
  {
  }

  // Whatever a thread remembers and holds, its next step meets the assertions.
  lemma AssertedNow(cfg: Config, st: State, t: nat, ch: Choice)
    requires Inv(cfg, st) && Small(st.sh) && t < |st.threads| && Remembers(st.threads[t])
    ensures Asserted(cfg, st.sh, st.threads[t], ch)
  {
    hide Protocol, Displacements, Usage, Occupancy, Refcount, U, Probe, ClockSlot, Pow2, Small;
    var pc := st.threads[t];
    Grounding(cfg, st, t);
    match pc
    case Idle =>
      if (ch.StartRelease? || ch.StartRef?) && ch.x < cfg.Size() && st.sh.users[ch.x] > 0 {
        UsersCounted(cfg, st, ch.x);
      }
    case Lookup(lk, key, i) => if lk.LkUnref? { CountedHere(cfg, st, t, At(cfg, key, i)); }
    case Release(rl, x) => if rl.RlUnref? { CountedHere(cfg, st, t, x); }
    case Insert(at, ins, i) => if at.InUnref? { CountedHere(cfg, st, t, At(cfg, ins.key, i)); }
    case Erase(er, key, i) => if er.ErUnref? { CountedHere(cfg, st, t, At(cfg, key, i)); }
    case Remove(rm, _, _, _) => if rm.RmOccupancy? { SeatTaken(cfg, st, t); }
    case Drop(dr, _, _) => if dr.DrOccupancy? { SeatTaken(cfg, st, t); }
    case _ =>
  }

  // In every state of every run, whichever thread steps next and whatever it does, the
  // assertions hold.
  lemma {:induction false} RunRemembers(cfg: Config, run: seq<State>, sched: seq<(nat, Choice)>, k: nat, t: nat)
    requires IsRun(cfg, run, sched) && Init(cfg, run[0]) && k < |run| && t < |run[k].threads|
    ensures Remembers(run[k].threads[t])
  {
    hide Inv, Next, Small, Remembers, Pow2;
    InitInv(cfg, run[0]);
    if k == 0 {
      RemembersIdle();
    } else {
      var (u, ch) := sched[k - 1];
      RunRemembers(cfg, run, sched, k - 1, t);
      RunInv(cfg, run, sched, k - 1);
      if u == t { RemembersStep(cfg, run[k - 1], t, ch); }
    }
  }

  lemma RemembersIdle()
    ensures Remembers(Idle)
  {
  }

  lemma NoAssertionFails(cfg: Config, run: seq<State>, sched: seq<(nat, Choice)>, k: nat, t: nat, ch: Choice)
    requires IsRun(cfg, run, sched) && Init(cfg, run[0]) && k < |run| && t < |run[k].threads|
    ensures Asserted(cfg, run[k].sh, run[k].threads[t], ch)
  {
    hide Inv, Remembers, Asserted, Pow2;
    InitInv(cfg, run[0]);
    RunInv(cfg, run, sched, k);
    RunRemembers(cfg, run, sched, k, t);
    AssertedNow(cfg, run[k], t, ch);
  }

  // -- the assertion on usage_ -----------------------------------------------------------------------

  // A thread about to give back the charge of an entry that it removed.
  predicate Reclaims(pc: Pc) {
    (pc.Remove? && pc.rm.RmUsage?) || (pc.Drop? && pc.dr.DrUsage?)
  }

  // As long as the total of all accounts is a word, usage_ is that total. Every bound
  // that the source asserts of usage_ is a bound on the total.
  lemma UsageIsTotal(cfg: Config, st: State)
    requires Inv(cfg, st) && st.sh.usage < WORD && 0 <= TotalCharge(cfg, st) < WORD
    ensures st.sh.usage == TotalCharge(cfg, st)
  {
    hide Local, Pinned, Displacements, Protocol, Occupancy, Pow2;
    CongExact(st.sh.usage, TotalCharge(cfg, st));
  }

  // A thread that took less than nothing: its charging CAS cut usage_ down to the
  // capacity that it had read.
  predicate Indebted(pc: Pc) {
    pc.Evict? && pc.sw.taken < 0
  }

  // Without debts usage_ covers everything that is being given back.
  lemma NoDebtNoUnderflow(cfg: Config, st: State, t: nat)
    requires Inv(cfg, st) && t < |st.threads| && Reclaims(st.threads[t])
    requires forall u :: 0 <= u < |st.threads| ==> !Indebted(st.threads[u])
    requires st.sh.usage < WORD && TotalCharge(cfg, st) < WORD
    ensures st.sh.usage >= st.threads[t].charge
  {
    hide Local, Pinned, Displacements, Protocol, Occupancy, Usage, Pow2;
    SumNonNegative(SlotWeights(ChargeOf(), st.sh.slots));
    SumBoundsEach(Accounts(CreditOf(), st.threads), t);
    UsageIsTotal(cfg, st);
  }
}
