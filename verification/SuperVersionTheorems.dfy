// What holds in every reachable state of the SuperVersion cache.
module SuperVersionTheorems {
  import opened Sums
  import opened SuperVersions
  import opened SuperVersionProofs

  // One SuperVersion is installed and nothing is cached.
  function Init(n: nat): State {
    State(Shared([1], [0], [0], 0, seq(n, _ => Obsolete), -1, -1), seq(n, _ => Idle))
  }

  lemma InitInv(n: nat)
    ensures Inv(Init(n))
  {
    var st := Init(n);
    SumZero(InSlots(st.s.slots, 0));
    SumZero(Owns(st.threads, 0));
    SumZero(Duties(st.threads, 0));
    forall v | 0 <= v < |st.s.refs| ensures Counted(st, v) && CleanedOnce(st, v) { assert v == 0; }
    forall k | 0 <= k < n ensures Fresh(st, k) {}
  }

  ghost predicate Steps(st: State, st': State) {
    exists i: nat, ch: Choice :: i < |st.threads| && st' == StepState(st, i, ch)
  }

  ghost predicate IsRun(run: seq<State>, n: nat) {
    run != [] && run[0] == Init(n) && forall k :: 0 <= k < |run| - 1 ==> Steps(run[k], run[k + 1])
  }

  lemma {:induction false} RunInv(run: seq<State>, n: nat, k: nat)
    requires IsRun(run, n) && k < |run|
    ensures Inv(run[k])
  {
    hide Inv, StepState, Init;
    if k == 0 {
      InitInv(n);
    } else {
      RunInv(run, n, k - 1);
      assert Steps(run[k - 1], run[k - 1 + 1]);
      var i: nat, ch: Choice :| i < |run[k - 1].threads| && run[k] == StepState(run[k - 1], i, ch);
      InvStep(run[k - 1], i, ch);
    }
  }

  // No assertion of the code fails: in particular the references dropped by a
  // scrape, at thread exit, and by GetReferencedSuperVersion are never the last.
  lemma NoAssertionFails(run: seq<State>, n: nat, k: nat, i: nat)
    requires IsRun(run, n) && k < |run| && i < |run[k].threads|
    ensures run[k].threads[i] != Broken
  {
    hide IsRun, Counted, CleanedOnce, Fresh;
    RunInv(run, n, k);
    assert PcOk(run[k].s, i, run[k].threads[i]);
  }

  // Somebody can reach v: it is installed, cached, in some thread's hands, or held
  // by an external reference.
  ghost predicate Reachable(st: State, v: nat) {
    || v == st.s.current
    || (exists k :: 0 <= k < |st.s.slots| && st.s.slots[k] == Cached(v))
    || (exists i :: 0 <= i < |st.threads| && Own(st.threads[i], v) > 0)
    || Outside(st.s, v) > 0
  }

  lemma {:induction false} ReachableHasRefs(st: State, v: nat)
    requires Counted(st, v)
    ensures Refs(st.s, v) >= 0 && (Refs(st.s, v) > 0 <==> Reachable(st, v))
  {
    hide Own, InSlot;
    var xs, ys := InSlots(st.s.slots, v), Owns(st.threads, v);
    forall i | 0 <= i < |ys| ensures ys[i] >= 0 { OwnNonNegative(st.threads[i], v); }
    SlotsNonNegative(st.s.slots, v);
    SumNonNegative(ys);
    if k :| 0 <= k < |st.s.slots| && st.s.slots[k] == Cached(v) {
      OneCached(st.s.slots, k, v);
    } else { NoneCached(st.s.slots, v); }
    if i :| 0 <= i < |st.threads| && Own(st.threads[i], v) > 0 { SumBoundsEach(ys, i); }
    else { SumZero(ys); }
  }

  lemma OneCached(slots: seq<Slot>, k: nat, v: nat)
    requires k < |slots| && slots[k] == Cached(v)
    ensures Sum(InSlots(slots, v)) >= 1
  {
    SumBoundsEach(InSlots(slots, v), k);
  }

  lemma NoneCached(slots: seq<Slot>, v: nat)
    requires forall k :: 0 <= k < |slots| ==> slots[k] != Cached(v)
    ensures Sum(InSlots(slots, v)) == 0
  {
    SumZero(InSlots(slots, v));
  }

  // Nobody can reach a SuperVersion that was cleaned up or is being cleaned up:
  // no use after free.
  lemma ReachableIsAlive(run: seq<State>, n: nat, k: nat, v: nat)
    requires IsRun(run, n) && k < |run| && v < |run[k].s.refs| && Reachable(run[k], v)
    ensures Cleaned(run[k].s, v) == 0
    ensures forall i :: 0 <= i < |run[k].threads| ==> Duty(run[k].threads[i], v) == 0
  {
    hide IsRun, Reachable, Counted, PcOk, Fresh, LocksOk, Duty;
    var st := run[k];
    RunInv(run, n, k);
    ReachableHasRefs(st, v);
    forall i | 0 <= i < |st.threads| ensures Duties(st.threads, v)[i] >= 0 { OwnNonNegative(st.threads[i], v); }
    SumNonNegative(Duties(st.threads, v));
    forall i | 0 <= i < |st.threads| ensures Duty(st.threads[i], v) == 0 { SumBoundsEach(Duties(st.threads, v), i); }
  }

  // Cleanup runs at most once, and what nobody can reach any more has been cleaned
  // up or is exactly one thread's duty: no leak and no double free.
  lemma UnreachableIsCleanedOnce(run: seq<State>, n: nat, k: nat, v: nat)
    requires IsRun(run, n) && k < |run| && v < |run[k].s.refs| && !Reachable(run[k], v)
    ensures Cleaned(run[k].s, v) + Sum(Duties(run[k].threads, v)) == 1
    ensures (forall i :: 0 <= i < |run[k].threads| ==> run[k].threads[i].Idle? || run[k].threads[i].Dead?) ==>
      Cleaned(run[k].s, v) == 1
  {
    hide IsRun, Reachable, Counted, PcOk, Fresh, LocksOk;
    var st := run[k];
    RunInv(run, n, k);
    ReachableHasRefs(st, v);
    if forall i :: 0 <= i < |st.threads| ==> st.threads[i].Idle? || st.threads[i].Dead? {
      SumZero(Duties(st.threads, v));
    }
  }

  // A reader that hits its thread-local cache gets the current SuperVersion,
  // unless an installer has just published a newer one and has not yet scraped
  // this very slot.
  lemma CacheIsFresh(run: seq<State>, n: nat, k: nat, i: nat, v: nat)
    requires IsRun(run, n) && k < |run| && i < |run[k].threads| && SlotAt(run[k].s, i) == Cached(v)
    ensures v == run[k].s.current || Pending(run[k], i, v)
  {
    hide IsRun, Counted, CleanedOnce, PcOk, LocksOk;
    RunInv(run, n, k);
    assert Fresh(run[k], i);
    assert Good(run[k], i, v);
  }

  // A reader that returns its SuperVersion successfully was still current, in the
  // same sense: it never puts a stale one back behind the scraper.
  lemma ReturnIsFresh(run: seq<State>, n: nat, k: nat, i: nat)
    requires IsRun(run, n) && k < |run| && i < |run[k].threads|
    requires InHand(run[k].threads[i]) && SlotAt(run[k].s, i).InUse?
    ensures run[k].threads[i].v == run[k].s.current || Pending(run[k], i, run[k].threads[i].v)
  {
    hide IsRun, Counted, CleanedOnce, PcOk, LocksOk;
    RunInv(run, n, k);
    assert Fresh(run[k], i);
    assert Good(run[k], i, run[k].threads[i].v);
  }

  // Whenever no installer is between publishing and the end of its scrape, every
  // slot that holds a SuperVersion holds the current one.
  lemma SettledCacheIsFresh(run: seq<State>, n: nat, k: nat, i: nat, v: nat)
    requires IsRun(run, n) && k < |run| && i < |run[k].threads| && SlotAt(run[k].s, i) == Cached(v)
    requires forall t :: 0 <= t < |run[k].threads| ==> !Scraping(run[k].threads[t])
    ensures v == run[k].s.current
  {
    hide IsRun;
    CacheIsFresh(run, n, k, i, v);
  }

  predicate Scraping(pc: Pc) {
    pc.Install? && (pc.is_.LockTls? || pc.is_.Scrape?)
  }

  // Nobody but the reader itself marks its slot as in use.
  lemma MarkedByItself(st: State, t: nat, ch: Choice, i: nat)
    requires t < |st.threads| == |st.s.slots| && i < |st.threads|
    requires Reading(st.threads[i]) && SlotAt(StepState(st, t, ch).s, i).InUse?
    ensures SlotAt(st.s, i).InUse?
  {
    hide Refs, Outside;
  }

  // A return that succeeds, because the slot is still marked, means that the slot
  // has not been scraped since the thread swapped its contents out.
  lemma {:induction false} ReturnedUnscraped(run: seq<State>, n: nat, j: nat, k: nat, i: nat)
    requires IsRun(run, n) && j <= k < |run|
    requires forall m :: j <= m <= k ==> i < |run[m].threads| && Reading(run[m].threads[i])
    requires SlotAt(run[k].s, i).InUse?
    ensures forall m :: j <= m <= k ==> SlotAt(run[m].s, i).InUse?
    decreases k - j
  {
    hide Inv, StepState, Init, Reading, SlotAt;
    if j < k {
      RunInv(run, n, k - 1);
      assert Steps(run[k - 1], run[k - 1 + 1]);
      var t: nat, ch: Choice :| t < |run[k - 1].threads| && run[k] == StepState(run[k - 1], t, ch);
      SlotsMatch(run[k - 1]);
      MarkedByItself(run[k - 1], t, ch, i);
      ReturnedUnscraped(run, n, j, k - 1, i);
    }
  }

  lemma SlotsMatch(st: State)
    requires Inv(st)
    ensures |st.threads| == |st.s.slots|
  {
  }
}
