// The invariant of the clock table in every interleaving: five conservation
// laws that tie the shared words to what the entries and all threads account
// for. Proved to hold initially and to be kept by every step of any thread.
module ClockInvariant {
  import opened Sums
  import opened ClockTable
  import opened ClockLedger
  import opened ClockAccounts

  // -- sums over the slots and over the threads --------------------------------

  ghost function SlotSum(weight: (nat, Slot) -> int, slots: seq<Slot>): int {
    Sum(SlotWeights(weight, slots))
  }

  ghost function SlotWeights(weight: (nat, Slot) -> int, slots: seq<Slot>): (ws: seq<int>)
    ensures |ws| == |slots|
  {
    seq(|slots|, x requires 0 <= x < |slots| => weight(x, slots[x]))
  }

  lemma SlotSumStep(weight: (nat, Slot) -> int, slots: seq<Slot>, slots': seq<Slot>, w: nat)
    requires w < |slots| == |slots'| && slots' == slots[w := slots'[w]]
    ensures SlotSum(weight, slots') == SlotSum(weight, slots) + weight(w, slots'[w]) - weight(w, slots[w])
  {
    assert SlotWeights(weight, slots') == SlotWeights(weight, slots)[w := weight(w, slots'[w])];
    SumUpdate(SlotWeights(weight, slots), w, weight(w, slots'[w]));
  }

  ghost function ThreadSum(account: Pc -> int, threads: seq<Pc>): int {
    Sum(Accounts(account, threads))
  }

  ghost function Accounts(account: Pc -> int, threads: seq<Pc>): (xs: seq<int>)
    ensures |xs| == |threads|
  {
    seq(|threads|, t requires 0 <= t < |threads| => account(threads[t]))
  }

  lemma ThreadSumStep(account: Pc -> int, threads: seq<Pc>, t: nat, pc: Pc)
    requires t < |threads|
    ensures ThreadSum(account, threads[t := pc]) == ThreadSum(account, threads) + account(pc) - account(threads[t])
  {
    assert Accounts(account, threads[t := pc]) == Accounts(account, threads)[t := account(pc)];
    SumUpdate(Accounts(account, threads), t, account(pc));
  }

  ghost function RefsAt(cfg: Config, s: nat): Pc -> int { pc => Refs(cfg, pc, s) }
  ghost function OwnsAt(cfg: Config, s: nat): Pc -> int { pc => Owns(cfg, pc, s) }
  ghost function ChargedAt(cfg: Config, s: nat): Pc -> int { pc => Charged(cfg, pc, s) }
  ghost function CreditOf(): Pc -> int { pc => Credit(pc) }
  ghost function SeatsOf(): Pc -> int { pc => Seats(pc) }
  ghost function TouchesAt(cfg: Config, s: nat): (nat, Slot) -> int {
    (x: nat, sl: Slot) => EntryTouches(cfg, s, x, sl)
  }
  ghost function ChargeOf(): (nat, Slot) -> int { (x: nat, sl: Slot) => EntryCharge(sl) }
  ghost function CountOf(): (nat, Slot) -> int { (x: nat, sl: Slot) => EntryCount(sl) }

  // -- the invariant --------------------------------------------------------------

  // References and ownership of slot s.
  ghost predicate Protocol(cfg: Config, st: State, s: nat)
    requires Shape(cfg, st.sh) && s < cfg.Size()
  {
    && RefsHold(st.sh.slots[s].meta, st.sh.users[s], ThreadSum(RefsAt(cfg, s), st.threads))
    && OwnsHold(st.sh.slots[s].meta, ThreadSum(OwnsAt(cfg, s), st.threads))
  }

  // displacements[s] is the number of entries displaced past s, plus what
  // unfinished probes and rollbacks still answer for.
  ghost predicate Displacements(cfg: Config, st: State, s: nat)
    requires Shape(cfg, st.sh) && s < cfg.Size()
  {
    st.sh.slots[s].disp == SlotSum(TouchesAt(cfg, s), st.sh.slots) + ThreadSum(ChargedAt(cfg, s), st.threads)
  }

  ghost function TotalCharge(cfg: Config, st: State): int {
    cfg.metadata + SlotSum(ChargeOf(), st.sh.slots) + st.sh.loose + ThreadSum(CreditOf(), st.threads)
  }

  // usage_ is the total charge, in size_t arithmetic.
  ghost predicate Usage(cfg: Config, st: State) {
    Cong(st.sh.usage, TotalCharge(cfg, st))
  }

  // occupancy_ is the number of entries plus the places threads have reserved
  // or not yet given back.
  ghost predicate Occupancy(st: State) {
    st.sh.occupancy == SlotSum(CountOf(), st.sh.slots) + ThreadSum(SeatsOf(), st.threads)
  }

  ghost predicate Locals(cfg: Config, st: State)
    requires Shape(cfg, st.sh)
  {
    forall t :: 0 <= t < |st.threads| ==> Local(cfg, st.threads[t]) && Pinned(cfg, st.sh, st.threads[t])
  }

  ghost predicate Inv(cfg: Config, st: State) {
    && WellFormed(cfg, st)
    && Locals(cfg, st)
    && (forall s :: 0 <= s < cfg.Size() ==> Protocol(cfg, st, s))
    && (forall s :: 0 <= s < cfg.Size() ==> Displacements(cfg, st, s))
    && Usage(cfg, st)
    && Occupancy(st)
  }

  predicate Init(cfg: Config, st: State) {
    && Shape(cfg, st.sh)
    && (forall x :: 0 <= x < cfg.Size() ==>
          st.sh.slots[x].meta == CLEARED && st.sh.slots[x].disp == 0 && st.sh.users[x] == 0)
    && st.sh.usage == U(cfg.metadata) && st.sh.occupancy == 0 && st.sh.loose == 0
    && forall t :: 0 <= t < |st.threads| ==> st.threads[t] == Idle
  }

  lemma InitInv(cfg: Config, st: State)
    requires Init(cfg, st)
    ensures Inv(cfg, st)
  {
    forall account: Pc -> int | account(Idle) == 0 ensures ThreadSum(account, st.threads) == 0 {
      SumZero(Accounts(account, st.threads));
    }
    forall weight: (nat, Slot) -> int | forall x :: 0 <= x < cfg.Size() ==> weight(x, st.sh.slots[x]) == 0
      ensures SlotSum(weight, st.sh.slots) == 0
    {
      SumZero(SlotWeights(weight, st.sh.slots));
    }
    forall s | 0 <= s < cfg.Size() ensures Protocol(cfg, st, s) && Displacements(cfg, st, s) {
      assert RefsAt(cfg, s)(Idle) == 0 && OwnsAt(cfg, s)(Idle) == 0 && ChargedAt(cfg, s)(Idle) == 0;
      assert SlotSum(TouchesAt(cfg, s), st.sh.slots) == 0;
    }
    assert CreditOf()(Idle) == 0 && SeatsOf()(Idle) == 0;
    assert SlotSum(ChargeOf(), st.sh.slots) == 0 && SlotSum(CountOf(), st.sh.slots) == 0;
    CongU(cfg.metadata);
  }

  // -- what the invariant gives one thread -----------------------------------------

  lemma RefsBound(cfg: Config, st: State, t: nat, s: nat)
    requires t < |st.threads|
    ensures 0 <= Refs(cfg, st.threads[t], s) <= ThreadSum(RefsAt(cfg, s), st.threads)
    ensures 0 <= Owns(cfg, st.threads[t], s) <= ThreadSum(OwnsAt(cfg, s), st.threads)
  {
    SumBoundsEach(Accounts(RefsAt(cfg, s), st.threads), t);
    SumBoundsEach(Accounts(OwnsAt(cfg, s), st.threads), t);
  }

  lemma Grounding(cfg: Config, st: State, t: nat)
    requires Inv(cfg, st) && t < |st.threads|
    ensures Grounded(cfg, st.sh, st.threads[t])
  {
    forall s | 0 <= s < cfg.Size()
      ensures Refs(cfg, st.threads[t], s) > 0 ==> Shareable(st.sh.slots[s].meta)
      ensures Owns(cfg, st.threads[t], s) > 0 ==> st.sh.slots[s].meta.state.Construction?
    {
      RefsBound(cfg, st, t, s);
      assert Protocol(cfg, st, s);
    }
  }

  // A slot that one thread references or owns is owned by no other thread.
  lemma NotOwnedByOther(cfg: Config, st: State, t: nat, u: nat, s: nat)
    requires Inv(cfg, st) && t < |st.threads| && u < |st.threads| && t != u && s < cfg.Size()
    requires Refs(cfg, st.threads[u], s) > 0 || Owns(cfg, st.threads[u], s) > 0
    ensures Owns(cfg, st.threads[t], s) == 0
  {
    assert Protocol(cfg, st, s);
    RefsBound(cfg, st, t, s);
    RefsBound(cfg, st, u, s);
    var owners := Accounts(OwnsAt(cfg, s), st.threads);
    SumBoundsPair(owners, if t < u then t else u, if t < u then u else t);
  }

  // -- every step keeps every part ---------------------------------------------------

  lemma ProtocolStep(cfg: Config, st: State, t: nat, ch: Choice, s: nat)
    requires Inv(cfg, st) && Small(st.sh) && t < |st.threads| && s < cfg.Size()
    ensures Protocol(cfg, Step(cfg, st, t, ch), s)
  {
    var pc := st.threads[t];
    var (sh', pc') := Next(cfg, st.sh, pc, ch);
    assert Protocol(cfg, st, s);
    RefsBound(cfg, st, t, s);
    SlotStep(cfg, st.sh, pc, ch, s, ThreadSum(RefsAt(cfg, s), st.threads), ThreadSum(OwnsAt(cfg, s), st.threads));
    ThreadSumStep(RefsAt(cfg, s), st.threads, t, pc');
    ThreadSumStep(OwnsAt(cfg, s), st.threads, t, pc');
  }

  lemma DisplacementsStep(cfg: Config, st: State, t: nat, ch: Choice, s: nat)
    requires Inv(cfg, st) && t < |st.threads| && s < cfg.Size()
    ensures Displacements(cfg, Step(cfg, st, t, ch), s)
  {
    var pc := st.threads[t];
    var (sh', pc') := Next(cfg, st.sh, pc, ch);
    var w := Touched(cfg, pc, ch);
    assert Displacements(cfg, st, s);
    Grounding(cfg, st, t);
    DataStep(cfg, st.sh, pc, ch);
    DispStep(cfg, st.sh, pc, ch, s);
    SlotSumStep(TouchesAt(cfg, s), st.sh.slots, sh'.slots, w);
    ThreadSumStep(ChargedAt(cfg, s), st.threads, t, pc');
  }

  lemma AccountsStep(cfg: Config, st: State, t: nat, ch: Choice)
    requires Inv(cfg, st) && t < |st.threads|
    ensures Usage(cfg, Step(cfg, st, t, ch)) && Occupancy(Step(cfg, st, t, ch))
  {
    hide Next, Cong, Touched, Local, Pinned, Displacements, Protocol;
    var pc := st.threads[t];
    var (sh', pc') := Next(cfg, st.sh, pc, ch);
    var w := Touched(cfg, pc, ch);
    Grounding(cfg, st, t);
    DataStep(cfg, st.sh, pc, ch);
    AccountStep(cfg, st.sh, pc, ch);
    SlotSumStep(ChargeOf(), st.sh.slots, sh'.slots, w);
    SlotSumStep(CountOf(), st.sh.slots, sh'.slots, w);
    ThreadSumStep(CreditOf(), st.threads, t, pc');
    ThreadSumStep(SeatsOf(), st.threads, t, pc');
    var before, after := TotalCharge(cfg, st), TotalCharge(cfg, Step(cfg, st, t, ch));
    CongRefl(after - before);
    CongAdd(st.sh.usage, before, after - before, after - before);
    CongTrans(sh'.usage, st.sh.usage + (after - before), after);
  }

  lemma LocalsStep(cfg: Config, st: State, t: nat, ch: Choice)
    requires Inv(cfg, st) && t < |st.threads|
    ensures Locals(cfg, Step(cfg, st, t, ch))
  {
    var pc := st.threads[t];
    var st' := Step(cfg, st, t, ch);
    Grounding(cfg, st, t);
    LocalStep(cfg, st.sh, pc, ch);
    DataStep(cfg, st.sh, pc, ch);
    forall u | 0 <= u < |st.threads| ensures Local(cfg, st'.threads[u]) && Pinned(cfg, st'.sh, st'.threads[u]) {
      if u != t { PinnedFrame(cfg, st, t, u, st'.sh); }
    }
  }

  // Data protected by thread u survives a step of thread t.
  lemma PinnedFrame(cfg: Config, st: State, t: nat, u: nat, sh': Shared)
    requires Inv(cfg, st) && t < |st.threads| && u < |st.threads| && t != u
    requires Shape(cfg, sh') && DataKept(cfg, st.sh, st.threads[t], sh')
    ensures Pinned(cfg, sh', st.threads[u])
  {
    var pc := st.threads[u];
    if (pc.Lookup? && pc.lk.LkHit?) || (pc.Erase? && (pc.er.ErHide? || pc.er.ErTake?)) {
      NotOwnedByOther(cfg, st, t, u, At(cfg, pc.key, pc.i));
    } else if pc.Insert? && pc.at.InPublish? {
      NotOwnedByOther(cfg, st, t, u, At(cfg, pc.ins.key, pc.i));
    }
  }

  // The invariant is inductive.
  lemma InvStep(cfg: Config, st: State, t: nat, ch: Choice)
    requires Inv(cfg, st) && Small(st.sh) && t < |st.threads|
    ensures Inv(cfg, Step(cfg, st, t, ch))
  {
    forall s | 0 <= s < cfg.Size()
      ensures Protocol(cfg, Step(cfg, st, t, ch), s) && Displacements(cfg, Step(cfg, st, t, ch), s)
    {
      ProtocolStep(cfg, st, t, ch, s);
      DisplacementsStep(cfg, st, t, ch, s);
    }
    AccountsStep(cfg, st, t, ch);
    LocalsStep(cfg, st, t, ch);
  }
}
