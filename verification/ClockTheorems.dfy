// What the clock table promises over whole runs, for any number of threads and
// any interleaving of their steps.
module ClockTheorems {
  import opened Probing
  import opened Sums
  import opened ClockTable
  import opened ClockLedger
  import opened ClockAccounts
  import opened ClockInvariant

  // run[k + 1] is run[k] after thread sched[k].0 took a step.
  ghost predicate IsRun(cfg: Config, run: seq<State>, sched: seq<(nat, Choice)>) {
    && |run| == |sched| + 1
    && (forall k :: 0 <= k < |run| ==> WellFormed(cfg, run[k]) && Small(run[k].sh))
    && (forall k :: 0 <= k < |sched| ==>
          sched[k].0 < |run[k].threads| && run[k + 1] == Step(cfg, run[k], sched[k].0, sched[k].1))
  }

  // Every state of every run from an initial state satisfies the invariant.
  lemma {:induction false} RunInv(cfg: Config, run: seq<State>, sched: seq<(nat, Choice)>, k: nat)
    requires IsRun(cfg, run, sched) && Inv(cfg, run[0]) && k < |run|
    ensures Inv(cfg, run[k])
  {
    if k > 0 {
      RunInv(cfg, run, sched, k - 1);
      InvStep(cfg, run[k - 1], sched[k - 1].0, sched[k - 1].1);
    }
  }

  // -- the slot as a read-write lock ----------------------------------------------

  // usage_ is a word.
  lemma UsageFits(cfg: Config, sh: Shared, pc: Pc, ch: Choice)
    requires Shape(cfg, sh) && InRange(cfg, pc) && sh.usage < WORD
    ensures Next(cfg, sh, pc, ch).0.usage < WORD
  {
    hide Probe, ClockSlot, Pow2, Refcount, AfterSlot, AfterCas, LaxNeed, U;
  }

  lemma {:induction false} RunUsageFits(cfg: Config, run: seq<State>, sched: seq<(nat, Choice)>, k: nat)
    requires IsRun(cfg, run, sched) && run[0].sh.usage < WORD && k < |run|
    ensures run[k].sh.usage < WORD
  {
    hide Next, Small, Pow2;
    if k > 0 {
      RunUsageFits(cfg, run, sched, k - 1);
      UsageFits(cfg, run[k - 1].sh, run[k - 1].threads[sched[k - 1].0], sched[k - 1].1);
    }
  }

  // Someone holds a counted reference on slot s: a caller with a handle, or a
  // thread inside an operation.
  ghost predicate Referenced(cfg: Config, st: State, s: nat)
    requires Shape(cfg, st.sh) && s < cfg.Size()
  {
    st.sh.users[s] > 0 || exists t :: 0 <= t < |st.threads| && Refs(cfg, st.threads[t], s) > 0
  }

  // A referenced slot is shareable and its reference count is positive, so the
  // assertions in Unref, Ref and Release hold; a slot under construction has
  // exactly one owner and no reference at all.
  lemma SlotIsReadWriteLock(cfg: Config, st: State, s: nat)
    requires Inv(cfg, st) && Small(st.sh) && s < cfg.Size()
    ensures Referenced(cfg, st, s) ==> Shareable(st.sh.slots[s].meta) && Refcount(st.sh.slots[s].meta) > 0
    ensures Shareable(st.sh.slots[s].meta) && Refcount(st.sh.slots[s].meta) > 0 ==> Referenced(cfg, st, s)
    ensures st.sh.slots[s].meta.state.Construction? ==>
      && !Referenced(cfg, st, s)
      && exists t :: 0 <= t < |st.threads| && Owns(cfg, st.threads[t], s) == 1
           && forall u :: 0 <= u < |st.threads| && u != t ==> Owns(cfg, st.threads[u], s) == 0
    ensures !st.sh.slots[s].meta.state.Construction? ==>
      forall t :: 0 <= t < |st.threads| ==> Owns(cfg, st.threads[t], s) == 0
  {
    hide Refs, Owns, Local, Pinned, Displacements, Usage, Occupancy, Refcount, Pow2;
    assert Protocol(cfg, st, s);
    RefcountExact(st.sh.slots[s].meta);
    forall t | 0 <= t < |st.threads|
      ensures 0 <= Refs(cfg, st.threads[t], s) <= ThreadSum(RefsAt(cfg, s), st.threads)
      ensures 0 <= Owns(cfg, st.threads[t], s) <= ThreadSum(OwnsAt(cfg, s), st.threads)
    {
      RefsBound(cfg, st, t, s);
    }
    SumNonNegative(Accounts(RefsAt(cfg, s), st.threads));
    if !exists t :: 0 <= t < |st.threads| && Refs(cfg, st.threads[t], s) > 0 {
      SumZero(Accounts(RefsAt(cfg, s), st.threads));
    }
    if st.sh.slots[s].meta.state.Construction? {
      if forall t :: 0 <= t < |st.threads| ==> Owns(cfg, st.threads[t], s) == 0 {
        SumZero(Accounts(OwnsAt(cfg, s), st.threads));
      }
      var t :| 0 <= t < |st.threads| && Owns(cfg, st.threads[t], s) == 1;
      forall u | 0 <= u < |st.threads| && u != t ensures Owns(cfg, st.threads[u], s) == 0 {
        NotOwnedByOther(cfg, st, u, t, s);
      }
    }
  }

  // While anybody keeps a reference on a slot, no step of any thread changes
  // the entry stored there or takes the slot for (de)construction.
  lemma ReferencedEntryIsStable(cfg: Config, st: State, t: nat, ch: Choice, s: nat)
    requires Inv(cfg, st) && Small(st.sh) && t < |st.threads| && s < cfg.Size()
    requires Referenced(cfg, st, s)
    requires Small(Step(cfg, st, t, ch).sh) && Referenced(cfg, Step(cfg, st, t, ch), s)
    ensures var st' := Step(cfg, st, t, ch);
      Shareable(st'.sh.slots[s].meta)
      && st'.sh.slots[s].key == st.sh.slots[s].key && st'.sh.slots[s].charge == st.sh.slots[s].charge
  {
    InvStep(cfg, st, t, ch);
    SlotIsReadWriteLock(cfg, st, s);
    SlotIsReadWriteLock(cfg, Step(cfg, st, t, ch), s);
    DataStep(cfg, st.sh, st.threads[t], ch);
  }

  // "we never go Invisible->Visible": an erased entry stays invisible until its
  // slot has been taken for deconstruction.
  lemma InvisibleStep(cfg: Config, st: State, t: nat, ch: Choice, s: nat)
    requires Inv(cfg, st) && t < |st.threads| && s < cfg.Size()
    requires st.sh.slots[s].meta.state.Invisible?
    ensures !Step(cfg, st, t, ch).sh.slots[s].meta.state.Visible?
    ensures !Step(cfg, st, t, ch).sh.slots[s].meta.state.Empty?
  {
    Grounding(cfg, st, t);
    assert Owns(cfg, st.threads[t], s) == 0;
    var pc := st.threads[t];
    StateStep(cfg, st.sh, pc, ch, s);
  }

  lemma StateStepSearch(cfg: Config, sh: Shared, pc: Pc, ch: Choice, s: nat)
    requires Shape(cfg, sh) && InRange(cfg, pc) && Guarded(pc) && s < cfg.Size()
    requires sh.slots[s].meta.state.Invisible? && Owns(cfg, pc, s) == 0 && (pc.Lookup? || pc.Insert? || pc.Erase?)
    ensures var state := Next(cfg, sh, pc, ch).0.slots[s].meta.state; !state.Visible? && !state.Empty?
  {
    hide Probe, ClockSlot, Pow2, U, Refcount;
    hide NextCharge, NextEvict, NextUndo, NextRemove, NextRelease, NextDrop, Begin;
  }

  lemma StateStepCharge(cfg: Config, sh: Shared, pc: Pc, ch: Choice, s: nat)
    requires Shape(cfg, sh) && InRange(cfg, pc) && Guarded(pc) && s < cfg.Size()
    requires sh.slots[s].meta.state.Invisible? && Owns(cfg, pc, s) == 0 && (pc.Charge? || pc.Evict? || pc.Undo?)
    ensures var state := Next(cfg, sh, pc, ch).0.slots[s].meta.state; !state.Visible? && !state.Empty?
  {
    hide Probe, ClockSlot, Pow2, U, Refcount;
    hide NextLookup, NextInsert, NextErase, NextRemove, NextRelease, NextDrop, Begin, AfterSlot;
  }

  lemma StateStepOther(cfg: Config, sh: Shared, pc: Pc, ch: Choice, s: nat)
    requires Shape(cfg, sh) && InRange(cfg, pc) && Guarded(pc) && s < cfg.Size()
    requires sh.slots[s].meta.state.Invisible? && Owns(cfg, pc, s) == 0
    requires (pc.Idle? || pc.Done? || pc.Remove? || pc.Release? || pc.Drop?)
    ensures var state := Next(cfg, sh, pc, ch).0.slots[s].meta.state; !state.Visible? && !state.Empty?
  {
    hide Probe, ClockSlot, Pow2, U, Refcount;
    hide NextLookup, NextInsert, NextErase, NextCharge, NextEvict, NextUndo;
  }

  lemma StateStep(cfg: Config, sh: Shared, pc: Pc, ch: Choice, s: nat)
    requires Shape(cfg, sh) && InRange(cfg, pc) && Guarded(pc) && s < cfg.Size()
    requires sh.slots[s].meta.state.Invisible? && Owns(cfg, pc, s) == 0
    ensures var state := Next(cfg, sh, pc, ch).0.slots[s].meta.state; !state.Visible? && !state.Empty?
  {
    hide Next, Owns, Guarded;
    if pc.Lookup? || pc.Insert? || pc.Erase? { StateStepSearch(cfg, sh, pc, ch, s); }
    else if pc.Charge? || pc.Evict? || pc.Undo? { StateStepCharge(cfg, sh, pc, ch, s); }
    else { StateStepOther(cfg, sh, pc, ch, s); }
  }

  lemma {:induction false} ErasedStaysInvisible(cfg: Config, run: seq<State>, sched: seq<(nat, Choice)>, a: nat, b: nat,
                                                s: nat)
    requires IsRun(cfg, run, sched) && Inv(cfg, run[0]) && a <= b < |run| && s < cfg.Size()
    requires run[a].sh.slots[s].meta.state.Invisible?
    requires forall k :: a <= k <= b ==> !run[k].sh.slots[s].meta.state.Construction?
    ensures run[b].sh.slots[s].meta.state.Invisible?
    decreases b - a
  {
    hide Inv, Next, Small, Pow2, Probe;
    if a < b {
      ErasedStaysInvisible(cfg, run, sched, a, b - 1, s);
      RunInv(cfg, run, sched, b - 1);
      InvisibleStep(cfg, run[b - 1], sched[b - 1].0, sched[b - 1].1, s);
    }
  }

  // -- displacements and Lookup -----------------------------------------------------

  // An entry stored in slot x keeps the displacements of every earlier slot on
  // its probe path above zero.
  lemma EntryKeepsPathOpen(cfg: Config, st: State, x: nat, i: nat)
    requires Inv(cfg, st) && x < cfg.Size() && Shareable(st.sh.slots[x].meta)
    requires i < PosOf(st.sh.slots[x].key, x, cfg.bits)
    ensures st.sh.slots[At(cfg, st.sh.slots[x].key, i)].disp >= 1
  {
    var key := st.sh.slots[x].key;
    var s := At(cfg, key, i);
    assert Displacements(cfg, st, s);
    TouchesPositive(key, 0, PosOf(key, x, cfg.bits), i, cfg.Size());
    SumBoundsEach(SlotWeights(TouchesAt(cfg, s), st.sh.slots), x);
    SumNonNegative(Accounts(ChargedAt(cfg, s), st.threads));
  }

  // A search for `key` that has not passed position p.
  predicate Searching(pc: Pc, key: Key, p: nat) {
    pc.Lookup? && pc.key == key && pc.i <= p && (pc.i == p ==> pc.lk.LkAcquire? || pc.lk.LkCompare? || pc.lk.LkHit?)
  }

  // The slot holds a visible entry for the key.
  predicate VisibleFor(sh: Shared, x: nat, key: Key) {
    x < |sh.slots| && sh.slots[x].meta.state.Visible? && sh.slots[x].key == key
  }

  lemma SearchStep(cfg: Config, st: State, t: nat, ch: Choice, key: Key, x: nat)
    requires Inv(cfg, st) && t < |st.threads| && x < cfg.Size()
    requires VisibleFor(st.sh, x, key) && Searching(st.threads[t], key, PosOf(key, x, cfg.bits))
    ensures var st' := Step(cfg, st, t, ch); var pc' := st'.threads[t];
      || Searching(pc', key, PosOf(key, x, cfg.bits))
      || (pc'.Done? && pc'.result.Some? && pc'.result.value < cfg.Size()
          && st'.sh.slots[pc'.result.value].key == key && st'.sh.users[pc'.result.value] > 0)
  {
    hide Protocol, Displacements, Usage, Occupancy, NextCharge, NextEvict, NextInsert, NextUndo, NextErase, NextRemove;
    hide NextRelease, NextDrop, Begin, Pow2;
    var pc := st.threads[t];
    var p := PosOf(key, x, cfg.bits);
    assert Pinned(cfg, st.sh, pc);
    if pc.lk.LkAbort? {
      EntryKeepsPathOpen(cfg, st, x, pc.i);
      ProbesDistinct(key, 0, pc.i + 1, cfg.bits);
    }
  }

  // -- a quiet table -------------------------------------------------------------------

  // No operation is in flight.
  predicate Quiet(st: State) {
    forall t :: 0 <= t < |st.threads| ==> st.threads[t].Idle? || st.threads[t].Done?
  }

  predicate Holds(cfg: Config, sh: Shared) {
    exists x :: 0 <= x < |sh.slots| && Shareable(sh.slots[x].meta)
  }

  lemma QuietSlot(cfg: Config, st: State, s: nat)
    requires Inv(cfg, st) && Quiet(st) && s < cfg.Size()
    ensures st.sh.slots[s].disp == SlotSum(TouchesAt(cfg, s), st.sh.slots)
    ensures !st.sh.slots[s].meta.state.Construction?
    ensures !Holds(cfg, st.sh) ==> st.sh.slots[s].disp == 0
  {
    assert Displacements(cfg, st, s) && Protocol(cfg, st, s);
    SumZero(Accounts(ChargedAt(cfg, s), st.threads));
    SumZero(Accounts(OwnsAt(cfg, s), st.threads));
    if !Holds(cfg, st.sh) { SumZero(SlotWeights(TouchesAt(cfg, s), st.sh.slots)); }
  }

  // Once no operation is in flight, the shared words describe the stored
  // entries and nothing else; an empty table is back in its initial state, as
  // the destructor asserts.
  lemma QuietTable(cfg: Config, st: State)
    requires Inv(cfg, st) && Quiet(st)
    ensures Cong(st.sh.usage, cfg.metadata + SlotSum(ChargeOf(), st.sh.slots) + st.sh.loose)
    ensures st.sh.occupancy == SlotSum(CountOf(), st.sh.slots)
    ensures !Holds(cfg, st.sh) ==> st.sh.occupancy == 0 && Cong(st.sh.usage, cfg.metadata + st.sh.loose)
    ensures !Holds(cfg, st.sh) ==> forall s :: 0 <= s < cfg.Size() ==> st.sh.slots[s].disp == 0
  {
    SumZero(Accounts(CreditOf(), st.threads));
    SumZero(Accounts(SeatsOf(), st.threads));
    if !Holds(cfg, st.sh) {
      SumZero(SlotWeights(ChargeOf(), st.sh.slots));
      SumZero(SlotWeights(CountOf(), st.sh.slots));
      forall s | 0 <= s < cfg.Size() ensures st.sh.slots[s].disp == 0 { QuietSlot(cfg, st, s); }
    }
  }
}
