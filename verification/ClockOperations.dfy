// What each operation of the clock table achieves, from the call to its return, in any
// interleaving with other threads.
module ClockOperations {
  import opened Probing
  import opened Sums
  import opened ClockTable
  import opened ClockLedger
  import opened ClockAccounts
  import opened ClockInvariant
  import opened ClockTheorems

  // Thread t makes a call in state a and has not returned from it before state b.
  ghost predicate Calls(
      cfg: Config, run: seq<State>, sched: seq<(nat, Choice)>, t: nat, ch: Choice, a: nat, b: nat) {
    && IsRun(cfg, run, sched) && Inv(cfg, run[0]) && a < b < |run| && sched[a] == (t, ch)
    && (forall k :: a <= k <= b ==> t < |run[k].threads|)
    && run[a].threads[t] == Idle && forall k :: a < k < b ==> Busy(run[k].threads[t])
  }

  predicate Busy(pc: Pc) {
    !pc.Idle? && !pc.Done?
  }

  // -- Erase ----------------------------------------------------------------------------------

  // An Erase that has not yet dealt with position p of the probe path.
  predicate Erasing(pc: Pc, key: Key, p: nat) {
    || (pc.Erase? && pc.key == key && pc.i <= p
        && (pc.i == p ==> pc.er.ErAcquire? || pc.er.ErCompare? || pc.er.ErHide?))
    || (pc.Remove? && pc.key == key && pc.i < p)
  }

  lemma EraseStep(cfg: Config, st: State, t: nat, ch: Choice, key: Key, x: nat)
    requires Inv(cfg, st) && t < |st.threads| && x < cfg.Size()
    requires VisibleFor(st.sh, x, key) && Erasing(st.threads[t], key, PosOf(key, x, cfg.bits))
    ensures var st' := Step(cfg, st, t, ch);
      Erasing(st'.threads[t], key, PosOf(key, x, cfg.bits)) || !VisibleFor(st'.sh, x, key)
  {
    hide Protocol, Displacements, Usage, Occupancy, NextCharge, NextEvict, NextInsert, NextUndo, NextLookup;
    hide NextRelease, NextDrop, Begin, Pow2;
    var pc := st.threads[t];
    if pc.Erase? && pc.er.ErAbort? {
      EntryKeepsPathOpen(cfg, st, x, pc.i);
      ProbesDistinct(key, 0, pc.i + 1, cfg.bits);
    }
  }

  lemma {:induction false} EraseKeepsLooking(
      cfg: Config, run: seq<State>, sched: seq<(nat, Choice)>, t: nat, key: Key, x: nat, a: nat, b: nat)
    requires Calls(cfg, run, sched, t, StartErase(key), a, b) && x < cfg.Size()
    requires forall k :: a <= k <= b ==> VisibleFor(run[k].sh, x, key)
    ensures Erasing(run[b].threads[t], key, PosOf(key, x, cfg.bits))
    decreases b
  {
    hide Inv, Next, VisibleFor, Small, Pow2, Probe;
    var (u, ch) := sched[b - 1];
    RunInv(cfg, run, sched, b - 1);
    if a + 1 < b {
      EraseKeepsLooking(cfg, run, sched, t, key, x, a, b - 1);
      if u == t { EraseStep(cfg, run[b - 1], t, ch, key, x); }
    } else {
      Begins(cfg, run[a], t, ch);
    }
  }

  lemma Begins(cfg: Config, st: State, t: nat, ch: Choice)
    requires WellFormed(cfg, st) && t < |st.threads| && st.threads[t] == Idle
    ensures var (sh', pc') := Begin(cfg, st.sh, ch);
      Step(cfg, st, t, ch).sh == sh' && Step(cfg, st, t, ch).threads[t] == pc'
  {
    hide Begin;
  }

  // When an Erase returns, no entry for the key has been visible from its start to its
  // end: whatever it did not hide itself was hidden, freed or inserted meanwhile.
  lemma EraseHidesAll(
      cfg: Config, run: seq<State>, sched: seq<(nat, Choice)>, t: nat, key: Key, x: nat, a: nat, b: nat)
    requires Calls(cfg, run, sched, t, StartErase(key), a, b) && x < cfg.Size()
    requires run[b].threads[t].Done?
    ensures exists k :: a <= k <= b && !VisibleFor(run[k].sh, x, key)
  {
    hide IsRun, Inv, VisibleFor;
    if forall k :: a <= k <= b ==> VisibleFor(run[k].sh, x, key) {
      EraseKeepsLooking(cfg, run, sched, t, key, x, a, b);
    }
  }

  // -- Lookup ---------------------------------------------------------------------------------

  // The thread has ended with a handle for the key.
  predicate HasHandle(cfg: Config, st: State, pc: Pc, key: Key) {
    && pc.Done? && pc.result.Some? && pc.result.value < |st.sh.slots| && pc.result.value < |st.sh.users|
    && var y := pc.result.value;
       && st.sh.slots[y].key == key && Shareable(st.sh.slots[y].meta) && st.sh.users[y] > 0
       && (cfg.tracksHits ==> st.sh.slots[y].meta.hit)
  }

  lemma LookupStep(cfg: Config, st: State, t: nat, ch: Choice)
    requires Inv(cfg, st) && t < |st.threads| && st.threads[t].Lookup?
    ensures var st' := Step(cfg, st, t, ch);
      var pc, pc' := st.threads[t], st'.threads[t];
      var x := At(cfg, pc.key, pc.i);
      && st'.sh.slots[x].key == st.sh.slots[x].key
      && (|| (pc'.Lookup? && pc'.key == pc.key
              && (pc'.lk.LkCompare? || pc'.lk.LkHit? ==>
                   pc'.i == pc.i && (pc.lk.LkCompare? || (pc.lk.LkAcquire? && st.sh.slots[x].meta.state.Visible?))))
          || pc' == Done(None)
          || (HasHandle(cfg, st', pc', pc.key) && pc'.result.value == x && (pc.lk.LkCompare? || pc.lk.LkHit?)
              && st'.sh.users[x] == st.sh.users[x] + 1))
  {
    hide Protocol, Displacements, Usage, Occupancy, Probe, Pow2;
    hide NextCharge, NextEvict, NextInsert, NextUndo, NextErase, NextRemove, NextRelease, NextDrop, Begin;
    var pc := st.threads[t];
    Grounding(cfg, st, t);
    GroundedAt(cfg, st.sh, pc, At(cfg, pc.key, pc.i));
  }

  // In some state from a to b slot x was visible, with the entry that it has in state b.
  ghost predicate WasVisible(run: seq<State>, a: nat, b: nat, x: nat) {
    && b < |run| && x < |run[b].sh.slots|
    && exists k :: a <= k <= b && VisibleFor(run[k].sh, x, run[b].sh.slots[x].key)
  }

  // One more state in which the slot has the same entry.
  lemma VisibleMore(run: seq<State>, a: nat, b: nat, x: nat)
    requires a <= b && b + 1 < |run| && x < |run[b].sh.slots| == |run[b + 1].sh.slots|
    requires run[b + 1].sh.slots[x].key == run[b].sh.slots[x].key
    ensures WasVisible(run, a, b, x) || run[b].sh.slots[x].meta.state.Visible? ==> WasVisible(run, a, b + 1, x)
  {
    if run[b].sh.slots[x].meta.state.Visible? {
      assert VisibleFor(run[b].sh, x, run[b + 1].sh.slots[x].key);
    }
  }

  // A reference keeps the entry in its slot while others work.
  lemma HeldByOther(cfg: Config, run: seq<State>, sched: seq<(nat, Choice)>, b: nat, t: nat, x: nat)
    requires IsRun(cfg, run, sched) && b + 1 < |run| && Inv(cfg, run[b]) && x < cfg.Size()
    requires t < |run[b].threads| && sched[b].0 != t && Refs(cfg, run[b].threads[t], x) > 0
    ensures run[b + 1].sh.slots[x].key == run[b].sh.slots[x].key
  {
    hide Inv, Next, Small, Refs;
    var st := run[b];
    var (u, ch) := sched[b];
    assert run[b + 1] == Step(cfg, st, u, ch) && Step(cfg, st, u, ch).threads[t] == st.threads[t];
    ReferencedEntryIsStable(cfg, st, u, ch, x);
  }

  // Until it returns, it is looking for its key, and compares only what was visible.
  ghost predicate LookingUp(cfg: Config, run: seq<State>, t: nat, key: Key, a: nat, b: nat)
    requires b < |run| && t < |run[b].threads|
  {
    var pc := run[b].threads[t];
    && pc.Lookup? && pc.key == key
    && (pc.lk.LkCompare? || pc.lk.LkHit? ==> WasVisible(run, a, b, At(cfg, key, pc.i)))
  }

  lemma {:induction false} InLookup(
      cfg: Config, run: seq<State>, sched: seq<(nat, Choice)>, t: nat, key: Key, a: nat, b: nat)
    requires Calls(cfg, run, sched, t, StartLookup(key), a, b) && Busy(run[b].threads[t])
    ensures LookingUp(cfg, run, t, key, a, b)
    decreases b
  {
    hide Inv, Next, Small, Pow2, Probe, WasVisible;
    var (u, ch) := sched[b - 1];
    RunInv(cfg, run, sched, b - 1);
    assert run[b - 1 + 1] == Step(cfg, run[b - 1], u, ch);
    if a + 1 < b {
      InLookup(cfg, run, sched, t, key, a, b - 1);
      var pc := run[b - 1].threads[t];
      var x := At(cfg, key, pc.i);
      if u == t {
        LookupStep(cfg, run[b - 1], t, ch);
      } else if pc.lk.LkCompare? || pc.lk.LkHit? {
        HeldByOther(cfg, run, sched, b - 1, t, x);
      }
      if run[b].sh.slots[x].key == run[b - 1].sh.slots[x].key { VisibleMore(run, a, b - 1, x); }
    } else {
      Begins(cfg, run[a], t, ch);
    }
  }

  // A Lookup that returns a handle returns one for its key, of an entry that was visible
  // meanwhile, referenced for the caller and marked as hit if hits are tracked.
  lemma LookupReturnsMatch(
      cfg: Config, run: seq<State>, sched: seq<(nat, Choice)>, t: nat, key: Key, a: nat, b: nat)
    requires Calls(cfg, run, sched, t, StartLookup(key), a, b) && run[b].threads[t].Done?
    ensures run[b].threads[t] == Done(None) || HasHandle(cfg, run[b], run[b].threads[t], key)
    ensures run[b].threads[t] != Done(None) ==> WasVisible(run, a, b, run[b].threads[t].result.value)
  {
    hide Inv, Next, Small, Pow2, Probe, WasVisible;
    var (u, ch) := sched[b - 1];
    RunInv(cfg, run, sched, b - 1);
    assert run[b - 1 + 1] == Step(cfg, run[b - 1], u, ch);
    if a + 1 < b {
      InLookup(cfg, run, sched, t, key, a, b - 1);
      LookupStep(cfg, run[b - 1], t, ch);
      var x := At(cfg, key, run[b - 1].threads[t].i);
      if run[b].sh.slots[x].key == run[b - 1].sh.slots[x].key { VisibleMore(run, a, b - 1, x); }
    } else {
      Begins(cfg, run[a], t, ch);
    }
  }

  lemma {:induction false} LookupKeepsLooking(
      cfg: Config, run: seq<State>, sched: seq<(nat, Choice)>, t: nat, key: Key, x: nat, a: nat, b: nat)
    requires Calls(cfg, run, sched, t, StartLookup(key), a, b) && x < cfg.Size()
    requires forall k :: a <= k <= b ==> VisibleFor(run[k].sh, x, key)
    ensures
      || Searching(run[b].threads[t], key, PosOf(key, x, cfg.bits))
      || (run[b].threads[t].Done? && run[b].threads[t].result.Some?)
    decreases b
  {
    hide Inv, Next, VisibleFor, Small, Pow2, Probe;
    var (u, ch) := sched[b - 1];
    RunInv(cfg, run, sched, b - 1);
    if a + 1 < b {
      LookupKeepsLooking(cfg, run, sched, t, key, x, a, b - 1);
      if u == t { SearchStep(cfg, run[b - 1], t, ch, key, x); }
    } else {
      Begins(cfg, run[a], t, ch);
    }
  }

  // A Lookup never reports "not found" while some slot holds a visible entry for its key
  // from the call to the return.
  lemma LookupFindsStableEntry(
      cfg: Config, run: seq<State>, sched: seq<(nat, Choice)>, t: nat, key: Key, x: nat, a: nat, b: nat)
    requires Calls(cfg, run, sched, t, StartLookup(key), a, b) && x < cfg.Size()
    requires forall k :: a <= k <= b ==> VisibleFor(run[k].sh, x, key)
    requires run[b].threads[t].Done?
    ensures HasHandle(cfg, run[b], run[b].threads[t], key)
  {
    hide IsRun, Inv, VisibleFor, HasHandle;
    LookupKeepsLooking(cfg, run, sched, t, key, x, a, b);
    LookupReturnsMatch(cfg, run, sched, t, key, a, b);
  }

  // -- Insert: the search for a slot ------------------------------------------------------------

  // Slot y was in use in some state from a to b.
  ghost predicate WasUsed(run: seq<State>, a: nat, b: nat, y: nat) {
    exists k :: a <= k <= b < |run| && y < |run[k].sh.slots| && !run[k].sh.slots[y].meta.state.Empty?
  }

  // There was a visible entry for the key.
  ghost predicate WasThere(run: seq<State>, a: nat, b: nat, key: Key) {
    exists k, y :: a <= k <= b < |run| && VisibleFor(run[k].sh, y, key)
  }

  lemma WasMore(run: seq<State>, a: nat, b: nat, y: nat, key: Key)
    requires b + 1 < |run|
    ensures WasUsed(run, a, b, y) ==> WasUsed(run, a, b + 1, y)
    ensures WasThere(run, a, b, key) ==> WasThere(run, a, b + 1, key)
  {
    hide VisibleFor;
  }

  // The search has found its slot in use.
  predicate Blocked(at: InsertAt) {
    at.InAcquire? || at.InCompare? || at.InBoost? || at.InUnref? || at.InDisplace?
  }

  // The entry is in the table, with a reference for the caller if it wants one.
  predicate Stored(cfg: Config, st: State, pc: Pc, ins: Ins, x: nat) {
    && VisibleFor(st.sh, x, ins.key) && x < |st.sh.users| && st.sh.slots[x].charge == ins.charge
    && st.sh.slots[x].meta.acq == ins.countdown && Refcount(st.sh.slots[x].meta) == (if ins.handle then 1 else 0)
    && pc == Done(if ins.handle then Some(x) else None) && (ins.handle ==> st.sh.users[x] > 0)
  }

  // One step of the search: on at the same position, to the next, or to its end. Where it
  // ends at an entry for the key, it has boosted the countdown of that entry.
  lemma SlotSearchStep(cfg: Config, st: State, t: nat, ch: Choice)
    requires Inv(cfg, st) && t < |st.threads| && st.threads[t].Insert?
    ensures var st' := Step(cfg, st, t, ch);
      var pc, pc' := st.threads[t], st'.threads[t];
      var x := At(cfg, pc.ins.key, pc.i);
      || (pc'.Insert? && pc'.ins == pc.ins && pc'.i == pc.i
          && (pc'.at.InCompare? ==> pc.at.InAcquire? && st.sh.slots[x].meta.state.Visible?)
          && (pc'.at.InBoost? ==> pc.at.InCompare? && st.sh.slots[x].key == pc.ins.key)
          && (pc'.at.InCompare? || pc'.at.InBoost? ==> st'.sh.slots[x].key == st.sh.slots[x].key)
          && (Blocked(pc'.at) ==> Blocked(pc.at) || !st.sh.slots[x].meta.state.Empty?))
      || (pc' == Insert(InClaim, pc.ins, pc.i + 1) && pc.at.InDisplace?)
      || (pc' == Undo(UnRollback(0, pc.i), pc.ins)
          && ((pc.at.InBoost? && st'.sh.slots[x].meta.rel >= pc.ins.countdown)
              || (pc.at.InDisplace? && At(cfg, pc.ins.key, pc.i + 1) == At(cfg, pc.ins.key, 0))))
      || Stored(cfg, st', pc', pc.ins, x)
  {
    hide Protocol, Displacements, Usage, Occupancy, Probe, Pow2;
    hide NextCharge, NextEvict, NextLookup, NextUndo, NextErase, NextRemove, NextRelease, NextDrop, Begin;
    var pc := st.threads[t];
    Grounding(cfg, st, t);
    GroundedAt(cfg, st.sh, pc, At(cfg, pc.ins.key, pc.i));
  }

  function InsOf(pc: Pc): Ins
    requires pc.Charge? || pc.Evict?
  {
    if pc.Charge? then pc.ins else pc.sw.ins
  }

  // Charging ends with the search for a slot, or the entry is turned away.
  lemma ChargeStep(cfg: Config, st: State, t: nat, ch: Choice)
    requires WellFormed(cfg, st) && t < |st.threads| && (st.threads[t].Charge? || st.threads[t].Evict?)
    requires !InsOf(st.threads[t]).alone
    ensures var pc' := Step(cfg, st, t, ch).threads[t];
      var ins := InsOf(st.threads[t]);
      || ((pc'.Charge? || pc'.Evict?) && InsOf(pc') == ins)
      || pc' == Insert(InClaim, ins, 0)
      || (pc'.Undo? && pc'.ins == ins && pc'.un.UnOccupancy? && !pc'.un.why.NotInserted?)
  {
    hide Probe, Pow2, ClockSlot, EffortExceeded, U, LaxNeed, NewUsage;
    hide NextInsert, NextLookup, NextUndo, NextErase, NextRemove, NextRelease, NextDrop, Begin;
  }

  // The strict limit has refused the entry.
  predicate Refuses(pc: Pc) {
    pc.Undo? && pc.un.UnOccupancy? && pc.un.why.Refused?
  }

  // The entry becomes a standalone one.
  predicate AddsStandalone(st: State, st': State, ins: Ins) {
    st'.sh.loose == st.sh.loose + ins.charge
  }

  lemma UndoStep(cfg: Config, st: State, t: nat, ch: Choice)
    requires WellFormed(cfg, st) && t < |st.threads| && st.threads[t].Undo?
    ensures var st' := Step(cfg, st, t, ch);
      var pc, pc' := st.threads[t], st'.threads[t];
      || (pc'.Undo? && pc'.ins == pc.ins && (pc'.un.UnOccupancy? ==> pc'.un.why.NotInserted?)
          && (pc'.un.UnRefund? ==> !pc.ins.handle))
      || (pc'.Done? && (pc.un.UnRefund? || !pc.ins.handle || Refuses(pc) || AddsStandalone(st, st', pc.ins)))
  {
    hide Probe, Pow2, U;
    hide NextInsert, NextLookup, NextCharge, NextEvict, NextErase, NextRemove, NextRelease, NextDrop, Begin;
  }

  // Charging has turned the entry away.
  ghost predicate TurnedAway(run: seq<State>, t: nat, a: nat, b: nat) {
    exists k :: a <= k <= b < |run| && t < |run[k].threads| && run[k].threads[t].Undo?
      && run[k].threads[t].un.UnOccupancy? && !run[k].threads[t].un.why.NotInserted?
  }

  // Why an entry does not get into the table.
  ghost predicate Excused(cfg: Config, run: seq<State>, t: nat, ins: Ins, a: nat, b: nat) {
    || TurnedAway(run, t, a, b)
    || WasThere(run, a, b, ins.key)
    || forall y :: 0 <= y < cfg.Size() ==> WasUsed(run, a, b, y)
  }

  lemma ExcusedMore(cfg: Config, run: seq<State>, t: nat, ins: Ins, a: nat, b: nat)
    requires Excused(cfg, run, t, ins, a, b) && b + 1 < |run|
    ensures Excused(cfg, run, t, ins, a, b + 1)
  {
    hide WasUsed, WasThere;
    WasMore(run, a, b, 0, ins.key);
    if !TurnedAway(run, t, a, b) && !WasThere(run, a, b, ins.key) {
      var b' := b + 1;
      forall y | 0 <= y < cfg.Size() ensures WasUsed(run, a, b', y) { WasMore(run, a, b, y, ins.key); }
    }
  }

  // Every position that the search has passed was in use.
  ghost predicate Tried(cfg: Config, run: seq<State>, key: Key, a: nat, b: nat, n: nat) {
    forall i :: 0 <= i < n ==> WasUsed(run, a, b, At(cfg, key, i))
  }

  lemma TriedMore(cfg: Config, run: seq<State>, key: Key, a: nat, b: nat, n: nat)
    requires Tried(cfg, run, key, a, b, n) && b + 1 < |run|
    ensures Tried(cfg, run, key, a, b + 1, n)
  {
    hide WasUsed, Probe;
    forall i | 0 <= i < n ensures WasUsed(run, a, b + 1, At(cfg, key, i)) { WasMore(run, a, b, At(cfg, key, i), key); }
  }

  lemma TriedAll(cfg: Config, run: seq<State>, key: Key, a: nat, b: nat, n: nat)
    requires Tried(cfg, run, key, a, b, n) && 0 < n <= cfg.Size() && At(cfg, key, n) == At(cfg, key, 0)
    ensures forall y :: 0 <= y < cfg.Size() ==> WasUsed(run, a, b, y)
  {
    hide WasUsed, Probe, Pow2;
    CycleCloses(key, n, cfg.bits);
    forall y | 0 <= y < cfg.Size() ensures WasUsed(run, a, b, y) {
      ProbesCover(key, y, cfg.bits);
      var i :| 0 <= i < cfg.Size() && Probe(key, i, cfg.Size()) == y;
      assert At(cfg, key, i) == y;
    }
  }

  // How far an Insert has got.
  ghost predicate Inserting(cfg: Config, run: seq<State>, t: nat, ins: Ins, a: nat, b: nat)
    requires b < |run| && t < |run[b].threads|
  {
    match run[b].threads[t]
    case Charge(_, ins') => ins' == ins
    case Evict(_, sw) => sw.ins == ins
    case Insert(at, ins', i) =>
      && ins' == ins && Tried(cfg, run, ins.key, a, b, if Blocked(at) then i + 1 else i)
      && (at.InCompare? ==> WasVisible(run, a, b, At(cfg, ins.key, i)))
      && (at.InBoost? ==> WasThere(run, a, b, ins.key))
    case Undo(un, ins') => ins' == ins && Excused(cfg, run, t, ins, a, b) && (un.UnRefund? ==> !ins.handle)
    case Done(_) => (exists x :: Stored(cfg, run[b], run[b].threads[t], ins, x)) || Excused(cfg, run, t, ins, a, b)
    case _ => false
  }

  lemma InsertingStep(cfg: Config, run: seq<State>, sched: seq<(nat, Choice)>, t: nat, ins: Ins, a: nat, b: nat)
    requires IsRun(cfg, run, sched) && a <= b && b + 1 < |run| && sched[b].0 == t && Inv(cfg, run[b]) && !ins.alone
    requires t < |run[b].threads| && t < |run[b + 1].threads| && Busy(run[b].threads[t])
    requires Inserting(cfg, run, t, ins, a, b)
    ensures Inserting(cfg, run, t, ins, a, b + 1)
  {
    hide Inv, Next, Small, Pow2, Probe, WasUsed, WasThere, Tried, Stored, Excused, WasVisible;
    var pc, ch := run[b].threads[t], sched[b].1;
    if pc.Insert? {
      SearchedMore(cfg, run, sched, t, ins, a, b);
    } else if pc.Undo? {
      UndoStep(cfg, run[b], t, ch);
      ExcusedMore(cfg, run, t, ins, a, b);
    } else {
      ChargeStep(cfg, run[b], t, ch);
      ChargedMore(cfg, run, t, ins, a, b);
    }
  }

  lemma ChargedMore(cfg: Config, run: seq<State>, t: nat, ins: Ins, a: nat, b: nat)
    requires a <= b && b + 1 < |run| && t < |run[b + 1].threads|
    ensures Tried(cfg, run, ins.key, a, b + 1, 0)
    ensures var pc' := run[b + 1].threads[t];
      pc'.Undo? && pc'.un.UnOccupancy? && !pc'.un.why.NotInserted? ==> Excused(cfg, run, t, ins, a, b + 1)
  {
    hide WasThere, WasUsed, Probe, Pow2;
  }

  lemma SearchedMore(cfg: Config, run: seq<State>, sched: seq<(nat, Choice)>, t: nat, ins: Ins, a: nat, b: nat)
    requires IsRun(cfg, run, sched) && a <= b && b + 1 < |run| && sched[b].0 == t && Inv(cfg, run[b])
    requires t < |run[b].threads| && t < |run[b + 1].threads| && run[b].threads[t].Insert?
    requires Inserting(cfg, run, t, ins, a, b)
    ensures Inserting(cfg, run, t, ins, a, b + 1)
  {
    hide Next, Small, Pow2, Probe, WasUsed, WasThere, WasVisible, TurnedAway;
    hide Protocol, Displacements, Usage, Occupancy;
    var pc, key := run[b].threads[t], ins.key;
    var n := if Blocked(pc.at) then pc.i + 1 else pc.i;
    SlotSearchStep(cfg, run[b], t, sched[b].1);
    assert run[b + 1] == Step(cfg, run[b], t, sched[b].1);
    TriedMore(cfg, run, key, a, b, n);
    WasMore(run, a, b, 0, key);
    UsedNow(cfg, run, key, a, b, pc.i);
    var x := At(cfg, key, pc.i);
    if run[b + 1].sh.slots[x].key == run[b].sh.slots[x].key { VisibleMore(run, a, b, x); }
    if pc.at.InDisplace? && At(cfg, key, pc.i + 1) == At(cfg, key, 0) {
      assert Local(cfg, pc);
      TriedAll(cfg, run, key, a, b + 1, pc.i + 1);
    }
  }

  // What the state of the last step adds.
  lemma UsedNow(cfg: Config, run: seq<State>, key: Key, a: nat, b: nat, i: nat)
    requires a <= b && b + 1 < |run| && Shape(cfg, run[b].sh)
    ensures WasVisible(run, a, b, At(cfg, key, i)) && run[b].sh.slots[At(cfg, key, i)].key == key ==>
      WasThere(run, a, b + 1, key)
    ensures !run[b].sh.slots[At(cfg, key, i)].meta.state.Empty? && Tried(cfg, run, key, a, b + 1, i) ==>
      Tried(cfg, run, key, a, b + 1, i + 1)
  {
    hide Probe, Pow2, VisibleFor;
  }

  lemma {:induction false} InInsert(
      cfg: Config, run: seq<State>, sched: seq<(nat, Choice)>, t: nat, ins: Ins, a: nat, b: nat)
    requires Calls(cfg, run, sched, t, StartInsert(ins), a, b) && !run[b].threads[t].Idle?
    ensures !ins.alone && Inserting(cfg, run, t, ins, a, b)
    decreases b
  {
    hide Inv, Next, Small, Pow2, Probe, Inserting;
    RunInv(cfg, run, sched, b - 1);
    if a + 1 < b {
      InInsert(cfg, run, sched, t, ins, a, b - 1);
      if sched[b - 1].0 == t { InsertingStep(cfg, run, sched, t, ins, a, b - 1); }
      else { InsertingFrame(cfg, run, sched, t, ins, a, b - 1); }
    } else {
      Begins(cfg, run[a], t, sched[a].1);
      InsertingStarts(cfg, run, t, ins, a, b);
    }
  }

  lemma InsertingStarts(cfg: Config, run: seq<State>, t: nat, ins: Ins, a: nat, b: nat)
    requires b < |run| && t < |run[b].threads| && run[b].threads[t] == Charge(ChOccupy, ins)
    ensures Inserting(cfg, run, t, ins, a, b)
  {
  }

  lemma ReferenceHeld(cfg: Config, st: State, t: nat)
    requires Inv(cfg, st) && t < |st.threads| && st.threads[t].Insert? && st.threads[t].at.InCompare?
    ensures Refs(cfg, st.threads[t], At(cfg, st.threads[t].ins.key, st.threads[t].i)) > 0
  {
    hide Protocol, Displacements, Usage, Occupancy, Probe, Pow2;
    assert Local(cfg, st.threads[t]);
  }

  // Steps of other threads take nothing back.
  lemma InsertingFrame(cfg: Config, run: seq<State>, sched: seq<(nat, Choice)>, t: nat, ins: Ins, a: nat, b: nat)
    requires IsRun(cfg, run, sched) && a <= b && b + 1 < |run| && sched[b].0 != t && Inv(cfg, run[b])
    requires t < |run[b].threads| && t < |run[b + 1].threads| && Busy(run[b].threads[t])
    requires Inserting(cfg, run, t, ins, a, b)
    ensures Inserting(cfg, run, t, ins, a, b + 1)
  {
    hide Inv, Next, Small, Pow2, Probe, WasUsed, WasThere, Tried, Stored, Excused, WasVisible;
    var pc := run[b].threads[t];
    assert run[b + 1].threads[t] == pc;
    if pc.Insert? {
      if pc.at.InCompare? {
        ReferenceHeld(cfg, run[b], t);
        HeldByOther(cfg, run, sched, b, t, At(cfg, ins.key, pc.i));
        VisibleMore(run, a, b, At(cfg, ins.key, pc.i));
      }
      TriedMore(cfg, run, ins.key, a, b, if Blocked(pc.at) then pc.i + 1 else pc.i);
      WasMore(run, a, b, 0, ins.key);
    } else if pc.Undo? {
      ExcusedMore(cfg, run, t, ins, a, b);
    }
  }

  // When an Insert returns, the entry is in the table as asked for, unless charging turned
  // it away, there was a visible entry for the key meanwhile, or every slot was in use at some
  // time meanwhile.
  lemma InsertStores(
      cfg: Config, run: seq<State>, sched: seq<(nat, Choice)>, t: nat, ins: Ins, a: nat, b: nat)
    requires Calls(cfg, run, sched, t, StartInsert(ins), a, b) && run[b].threads[t].Done?
    ensures (exists x :: Stored(cfg, run[b], run[b].threads[t], ins, x)) || Excused(cfg, run, t, ins, a, b)
  {
    hide IsRun, Inv, Stored, Excused;
    InInsert(cfg, run, sched, t, ins, a, b);
  }

  // A caller that wants a handle gets one unless the strict limit refused the entry: to the
  // entry in the table, or to a standalone one that is charged.
  lemma InsertReturnsHandle(
      cfg: Config, run: seq<State>, sched: seq<(nat, Choice)>, t: nat, ins: Ins, a: nat, b: nat)
    requires Calls(cfg, run, sched, t, StartInsert(ins), a, b) && run[b].threads[t].Done? && ins.handle
    ensures
      || (exists x :: Stored(cfg, run[b], run[b].threads[t], ins, x))
      || Refuses(run[b - 1].threads[t])
      || AddsStandalone(run[b - 1], run[b], ins)
  {
    hide Inv, Next, Small, Pow2, Probe, Tried, WasUsed, WasThere, WasVisible, Excused, Stored, AddsStandalone;
    RunInv(cfg, run, sched, b - 1);
    var (u, ch) := sched[b - 1];
    assert run[b - 1 + 1] == Step(cfg, run[b - 1], u, ch);
    if a + 1 < b {
      InInsert(cfg, run, sched, t, ins, a, b - 1);
      var pc := run[b - 1].threads[t];
      if pc.Insert? { SlotSearchStep(cfg, run[b - 1], t, ch); }
      else if pc.Undo? { UndoStep(cfg, run[b - 1], t, ch); }
      else { ChargeStep(cfg, run[b - 1], t, ch); }
    } else {
      Begins(cfg, run[a], t, ch);
    }
  }

  // The search for a slot that has not passed position p, where an entry for the key is.
  predicate NotBehind(pc: Pc, ins: Ins, p: nat) {
    match pc
    case Charge(_, ins') => ins' == ins
    case Evict(_, sw) => sw.ins == ins
    case Insert(at, ins', i) =>
      ins' == ins && i <= p && (i == p ==> at.InClaim? || at.InAcquire? || at.InCompare? || at.InBoost?)
    case Undo(_, ins') => ins' == ins
    case _ => false
  }

  lemma NotBehindStep(cfg: Config, st: State, t: nat, ch: Choice, ins: Ins, x: nat)
    requires Inv(cfg, st) && t < |st.threads| && st.threads[t].Insert? && x < cfg.Size()
    requires VisibleFor(st.sh, x, ins.key) && NotBehind(st.threads[t], ins, PosOf(ins.key, x, cfg.bits))
    ensures var st' := Step(cfg, st, t, ch);
      var pc, pc' := st.threads[t], st'.threads[t];
      NotBehind(pc', ins, PosOf(ins.key, x, cfg.bits)) || (pc'.Done? && pc.i < PosOf(ins.key, x, cfg.bits))
  {
    hide Protocol, Displacements, Usage, Occupancy, Pow2;
    hide NextCharge, NextEvict, NextLookup, NextUndo, NextErase, NextRemove, NextRelease, NextDrop, Begin;
  }

  // Where the thread stores its entry.
  ghost predicate StoredBefore(cfg: Config, run: seq<State>, t: nat, ins: Ins, b: nat, p: nat)
    requires 0 < b < |run|
  {
    && t < |run[b - 1].threads| && run[b - 1].threads[t].Insert? && run[b - 1].threads[t].ins == ins
    && run[b - 1].threads[t].i < p
  }

  lemma {:induction false} InsertStaysBefore(
      cfg: Config, run: seq<State>, sched: seq<(nat, Choice)>, t: nat, ins: Ins, x: nat, a: nat, b: nat)
    requires Calls(cfg, run, sched, t, StartInsert(ins), a, b) && x < cfg.Size() && !run[b].threads[t].Idle?
    requires forall k :: a <= k <= b ==> VisibleFor(run[k].sh, x, ins.key)
    ensures var p := PosOf(ins.key, x, cfg.bits);
      || NotBehind(run[b].threads[t], ins, p)
      || (run[b].threads[t].Done? && (run[b - 1].threads[t].Undo? || StoredBefore(cfg, run, t, ins, b, p)))
    decreases b
  {
    hide Inv, Next, VisibleFor, Small, Pow2, Probe;
    RunInv(cfg, run, sched, b - 1);
    var (u, ch) := sched[b - 1];
    assert run[b - 1 + 1] == Step(cfg, run[b - 1], u, ch);
    if a + 1 < b {
      InsertStaysBefore(cfg, run, sched, t, ins, x, a, b - 1);
      InInsert(cfg, run, sched, t, ins, a, b - 1);
      var pc := run[b - 1].threads[t];
      if u == t {
        if pc.Insert? { NotBehindStep(cfg, run[b - 1], t, ch, ins, x); }
        else if pc.Undo? { UndoStep(cfg, run[b - 1], t, ch); }
        else { ChargeStep(cfg, run[b - 1], t, ch); }
      }
    } else {
      Begins(cfg, run[a], t, ch);
    }
  }

  // While an entry for its key stays visible, an Insert stores no second one behind it on
  // the probe path: at that entry it stops.
  lemma InsertNotBehind(
      cfg: Config, run: seq<State>, sched: seq<(nat, Choice)>, t: nat, ins: Ins, x: nat, a: nat, b: nat)
    requires Calls(cfg, run, sched, t, StartInsert(ins), a, b) && x < cfg.Size() && run[b].threads[t].Done?
    requires forall k :: a <= k <= b ==> VisibleFor(run[k].sh, x, ins.key)
    ensures run[b - 1].threads[t].Undo? || StoredBefore(cfg, run, t, ins, b, PosOf(ins.key, x, cfg.bits))
  {
    hide IsRun, Inv, VisibleFor;
    InsertStaysBefore(cfg, run, sched, t, ins, x, a, b);
  }

  // -- Ref, Release and EraseUnRefEntries ---------------------------------------------------------

  // The references that callers hold change in exactly two ways: an operation returns a
  // handle, or a caller releases one.
  predicate UsersMove(cfg: Config, sh: Shared, pc: Pc, ch: Choice, sh': Shared, pc': Pc)
    requires Shape(cfg, sh)
  {
    sh'.users ==
      if pc.Idle? && ch.StartRelease? && ch.x < cfg.Size() && sh.users[ch.x] > 0
      then sh.users[ch.x := sh.users[ch.x] - 1]
      else if !pc.Done? && pc'.Done? && pc'.result.Some? && pc'.result.value < cfg.Size()
      then sh.users[pc'.result.value := sh.users[pc'.result.value] + 1]
      else sh.users
  }

  lemma UsersSearch(cfg: Config, sh: Shared, pc: Pc, ch: Choice)
    requires Shape(cfg, sh) && InRange(cfg, pc) && (pc.Lookup? || pc.Insert? || pc.Erase? || pc.Remove?)
    ensures var (sh', pc') := Next(cfg, sh, pc, ch); UsersMove(cfg, sh, pc, ch, sh', pc')
  {
    hide Probe, Pow2, U, Refcount, NextCharge, NextEvict, NextUndo, NextRelease, NextDrop, Begin;
  }

  lemma UsersCharge(cfg: Config, sh: Shared, pc: Pc, ch: Choice)
    requires Shape(cfg, sh) && InRange(cfg, pc) && (pc.Charge? || pc.Evict? || pc.Undo?)
    ensures var (sh', pc') := Next(cfg, sh, pc, ch); UsersMove(cfg, sh, pc, ch, sh', pc')
  {
    hide Probe, Pow2, ClockSlot, EffortExceeded, U, LaxNeed, NewUsage;
    hide NextLookup, NextInsert, NextErase, NextRemove, NextRelease, NextDrop, Begin;
  }

  lemma UsersOther(cfg: Config, sh: Shared, pc: Pc, ch: Choice)
    requires Shape(cfg, sh) && InRange(cfg, pc) && (pc.Idle? || pc.Done? || pc.Release? || pc.Drop?)
    ensures var (sh', pc') := Next(cfg, sh, pc, ch); UsersMove(cfg, sh, pc, ch, sh', pc')
  {
    hide Probe, Pow2, U, Refcount, NextLookup, NextInsert, NextErase, NextRemove, NextCharge, NextEvict, NextUndo;
  }

  lemma UsersStep(cfg: Config, st: State, t: nat, ch: Choice)
    requires WellFormed(cfg, st) && t < |st.threads|
    ensures var st' := Step(cfg, st, t, ch); UsersMove(cfg, st.sh, st.threads[t], ch, st'.sh, st'.threads[t])
  {
    hide Next, UsersMove;
    var pc := st.threads[t];
    if pc.Lookup? || pc.Insert? || pc.Erase? || pc.Remove? { UsersSearch(cfg, st.sh, pc, ch); }
    else if pc.Charge? || pc.Evict? || pc.Undo? { UsersCharge(cfg, st.sh, pc, ch); }
    else { UsersOther(cfg, st.sh, pc, ch); }
  }

  // Ref gives its caller one more reference to the same entry.
  lemma RefHolds(cfg: Config, st: State, t: nat, x: nat)
    requires Inv(cfg, st) && Small(st.sh) && t < |st.threads| && st.threads[t] == Idle
    requires x < cfg.Size() && st.sh.users[x] > 0
    ensures var st' := Step(cfg, st, t, StartRef(x));
      && st'.threads[t] == Done(Some(x)) && st'.sh.users == st.sh.users[x := st.sh.users[x] + 1]
      && Refcount(st'.sh.slots[x].meta) == Refcount(st.sh.slots[x].meta) + 1
      && Shareable(st'.sh.slots[x].meta) && st'.sh.slots[x].key == st.sh.slots[x].key
  {
    hide Displacements, Usage, Occupancy, Probe, Pow2, Locals;
    assert Protocol(cfg, st, x);
    SumNonNegative(Accounts(RefsAt(cfg, x), st.threads));
  }

  // A Release undoes the acquisition if the use was not useful, and else counts as a use:
  // the countdown that the entry is left with is larger by one.
  lemma ReleaseCounts(cfg: Config, st: State, t: nat, x: nat, useful: bool, last: bool)
    requires Inv(cfg, st) && t < |st.threads| && st.threads[t] == Idle && x < cfg.Size() && st.sh.users[x] > 0
    ensures var m, m' := st.sh.slots[x].meta, Step(cfg, st, t, StartRelease(x, useful, last)).sh.slots[x].meta;
      && m'.acq - m'.rel == m.acq - m.rel - 1
      && m' == if useful then m.(rel := m.rel + 1) else m.(acq := m.acq - 1)
  {
    hide Displacements, Usage, Occupancy, Probe, Pow2, Locals;
    assert Protocol(cfg, st, x);
    SumNonNegative(Accounts(RefsAt(cfg, x), st.threads));
  }

  // In some state after a up to b the entry was referenced, or the slot was no entry.
  ghost predicate WasTaken(run: seq<State>, a: nat, b: nat, x: nat) {
    exists k :: a < k <= b < |run| && x < |run[k].sh.slots|
      && (Refcount(run[k].sh.slots[x].meta) != 0 || !Shareable(run[k].sh.slots[x].meta))
  }

  // The meta word was this one.
  ghost predicate WasSeen(run: seq<State>, a: nat, b: nat, x: nat, m: Meta) {
    exists k :: a < k <= b < |run| && x < |run[k].sh.slots| && run[k].sh.slots[x].meta == m
  }

  lemma ReleaseStep(cfg: Config, st: State, t: nat, ch: Choice, x: nat, seen: Meta)
    requires WellFormed(cfg, st) && t < |st.threads| && st.threads[t] == Release(RlTake(seen), x)
    ensures var st' := Step(cfg, st, t, ch);
      var pc' := st'.threads[t];
      || pc' == Release(RlTake(st.sh.slots[x].meta), x)
      || (pc'.Done? && (Refcount(seen) != 0 || !Shareable(seen)))
      || (pc'.Drop? && pc'.x == x && !Shareable(st'.sh.slots[x].meta))
  {
  }

  lemma DropStep(cfg: Config, st: State, t: nat, ch: Choice)
    requires WellFormed(cfg, st) && t < |st.threads| && st.threads[t].Drop?
    ensures Step(cfg, st, t, ch).threads[t].Done? || Step(cfg, st, t, ch).threads[t].Drop?
  {
    hide Probe, Pow2, U;
  }

  // How far a Release of the last reference has got.
  ghost predicate Releasing(run: seq<State>, t: nat, x: nat, a: nat, b: nat)
    requires b < |run| && t < |run[b].threads|
  {
    var pc := run[b].threads[t];
    || (pc.Release? && pc.x == x && pc.rl.RlTake? && WasSeen(run, a, b, x, pc.rl.seen))
    || ((pc.Drop? || pc.Done?) && WasTaken(run, a, b, x))
  }

  lemma TakenMore(run: seq<State>, a: nat, b: nat, x: nat, m: Meta)
    requires b + 1 < |run|
    ensures WasTaken(run, a, b, x) ==> WasTaken(run, a, b + 1, x)
    ensures WasSeen(run, a, b, x, m) ==> WasSeen(run, a, b + 1, x, m)
    ensures WasSeen(run, a, b, x, m) && (Refcount(m) != 0 || !Shareable(m)) ==> WasTaken(run, a, b, x)
    ensures a < b && x < |run[b].sh.slots| ==> WasSeen(run, a, b, x, run[b].sh.slots[x].meta)
    ensures a <= b && x < |run[b + 1].sh.slots| && !Shareable(run[b + 1].sh.slots[x].meta) ==>
      WasTaken(run, a, b + 1, x)
  {
    hide Refcount, Shareable;
  }

  lemma {:induction false} InRelease(
      cfg: Config, run: seq<State>, sched: seq<(nat, Choice)>, t: nat, x: nat, useful: bool, last: bool, a: nat, b: nat)
    requires Calls(cfg, run, sched, t, StartRelease(x, useful, last), a, b) && x < cfg.Size()
    requires run[a].sh.users[x] > 0 && (last || run[a].sh.slots[x].meta.state.Invisible?)
    ensures Releasing(run, t, x, a, b)
    decreases b
  {
    hide Inv, Next, Small, Pow2, Probe, WasSeen, WasTaken, Refcount, Shareable;
    var (u, ch) := sched[b - 1];
    assert run[b - 1 + 1] == Step(cfg, run[b - 1], u, ch);
    if a + 1 < b {
      InRelease(cfg, run, sched, t, x, useful, last, a, b - 1);
      var pc := run[b - 1].threads[t];
      TakenMore(run, a, b - 1, x, if pc.Release? && pc.rl.RlTake? then pc.rl.seen else CLEARED);
      TakenMore(run, a, b - 1, x, run[b - 1].sh.slots[x].meta);
      if u == t {
        if pc.Drop? { DropStep(cfg, run[b - 1], t, ch); } else { ReleaseStep(cfg, run[b - 1], t, ch, x, pc.rl.seen); }
      }
    } else {
      Begins(cfg, run[a], t, ch);
      SeenNow(run, a, x);
    }
  }

  lemma SeenNow(run: seq<State>, a: nat, x: nat)
    requires a + 1 < |run| && x < |run[a + 1].sh.slots|
    ensures WasSeen(run, a, a + 1, x, run[a + 1].sh.slots[x].meta)
  {
  }

  // A Release of an invisible entry, or one that asks to erase, does not leave the entry
  // behind unreferenced: between the call and the return somebody else held a reference,
  // or the slot was taken for deconstruction.
  lemma ReleaseFreesLast(
      cfg: Config, run: seq<State>, sched: seq<(nat, Choice)>, t: nat, x: nat, useful: bool, last: bool, a: nat, b: nat)
    requires Calls(cfg, run, sched, t, StartRelease(x, useful, last), a, b) && x < cfg.Size()
    requires run[a].sh.users[x] > 0 && (last || run[a].sh.slots[x].meta.state.Invisible?)
    requires run[b].threads[t].Done?
    ensures WasTaken(run, a, b, x)
  {
    hide IsRun, Inv, WasTaken;
    InRelease(cfg, run, sched, t, x, useful, last, a, b);
  }

  lemma {:induction false} InSweep(
      cfg: Config, run: seq<State>, sched: seq<(nat, Choice)>, t: nat, x: nat, a: nat, b: nat)
    requires Calls(cfg, run, sched, t, StartSweep(x), a, b) && x < cfg.Size()
    requires Shareable(run[a].sh.slots[x].meta) && Refcount(run[a].sh.slots[x].meta) == 0
    requires forall k :: a <= k <= b ==> run[k].sh.slots[x].meta == run[a].sh.slots[x].meta
    ensures run[b].threads[t] == Release(RlSweep(run[a].sh.slots[x].meta), x)
    decreases b
  {
    hide Inv, Small, Pow2, Probe, Refcount;
    hide NextLookup, NextCharge, NextEvict, NextInsert, NextUndo, NextErase, NextRemove, NextDrop;
    var (u, ch) := sched[b - 1];
    assert run[b - 1 + 1] == Step(cfg, run[b - 1], u, ch);
    if a + 1 < b { InSweep(cfg, run, sched, t, x, a, b - 1); }
  }

  // EraseUnRefEntries does not pass over an unreferenced entry whose meta word stays the
  // same meanwhile.
  lemma SweepTakes(cfg: Config, run: seq<State>, sched: seq<(nat, Choice)>, t: nat, x: nat, a: nat, b: nat)
    requires Calls(cfg, run, sched, t, StartSweep(x), a, b) && x < cfg.Size() && run[b].threads[t].Done?
    requires Shareable(run[a].sh.slots[x].meta) && Refcount(run[a].sh.slots[x].meta) == 0
    ensures exists k :: a < k <= b && run[k].sh.slots[x].meta != run[a].sh.slots[x].meta
  {
    hide Inv, Small, Pow2, Refcount, Next;
    if forall k :: a <= k <= b ==> run[k].sh.slots[x].meta == run[a].sh.slots[x].meta {
      InSweep(cfg, run, sched, t, x, a, b);
    }
  }
}
