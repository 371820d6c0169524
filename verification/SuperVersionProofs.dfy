// The reference ledger of the SuperVersion cache, kept by every step of every
// thread, and what follows for readers and for Cleanup.
module SuperVersionProofs {
  import opened Sums
  import opened SuperVersions

  datatype State = State(s: Shared, threads: seq<Pc>)

  // -- totals ------------------------------------------------------------------------------------

  ghost function Owns(threads: seq<Pc>, v: nat): (xs: seq<int>)
    ensures |xs| == |threads|
  {
    seq(|threads|, i requires 0 <= i < |threads| => Own(threads[i], v))
  }

  ghost function Duties(threads: seq<Pc>, v: nat): (xs: seq<int>)
    ensures |xs| == |threads|
  {
    seq(|threads|, i requires 0 <= i < |threads| => Duty(threads[i], v))
  }

  ghost function InSlots(slots: seq<Slot>, v: nat): (xs: seq<int>)
    ensures |xs| == |slots|
  {
    seq(|slots|, k requires 0 <= k < |slots| => InSlot(slots[k], v))
  }

  lemma OwnsUpdate(threads: seq<Pc>, i: nat, pc: Pc, v: nat)
    requires i < |threads|
    ensures Sum(Owns(threads[i := pc], v)) == Sum(Owns(threads, v)) + Own(pc, v) - Own(threads[i], v)
  {
    hide Own;
    assert Owns(threads[i := pc], v) == Owns(threads, v)[i := Own(pc, v)];
    SumUpdate(Owns(threads, v), i, Own(pc, v));
  }

  lemma DutiesUpdate(threads: seq<Pc>, i: nat, pc: Pc, v: nat)
    requires i < |threads|
    ensures Sum(Duties(threads[i := pc], v)) == Sum(Duties(threads, v)) + Duty(pc, v) - Duty(threads[i], v)
  {
    hide Duty;
    assert Duties(threads[i := pc], v) == Duties(threads, v)[i := Duty(pc, v)];
    SumUpdate(Duties(threads, v), i, Duty(pc, v));
  }

  lemma InSlotsUpdate(slots: seq<Slot>, k: nat, x: Slot, v: nat)
    requires k < |slots|
    ensures Sum(InSlots(slots[k := x], v)) == Sum(InSlots(slots, v)) + InSlot(x, v) - InSlot(slots[k], v)
  {
    hide InSlot;
    assert InSlots(slots[k := x], v) == InSlots(slots, v)[k := InSlot(x, v)];
    SumUpdate(InSlots(slots, v), k, InSlot(x, v));
  }

  // -- the invariant -------------------------------------------------------------------------------

  // The references to v are exactly those of super_version_ itself, of the slots,
  // of threads in the middle of an operation, and of external holders.
  ghost predicate Counted(st: State, v: nat) {
    Refs(st.s, v) == One(v == st.s.current) + Sum(InSlots(st.s.slots, v)) + Sum(Owns(st.threads, v)) + Outside(st.s, v)
  }

  // Once the references are gone, Cleanup has run once or is one thread's duty.
  ghost predicate CleanedOnce(st: State, v: nat) {
    Cleaned(st.s, v) + Sum(Duties(st.threads, v)) == One(Refs(st.s, v) == 0)
  }

  predicate Shape(st: State) {
    && |st.s.refs| == |st.s.cleaned| == |st.s.outside|
    && st.s.current < |st.s.refs| && |st.s.slots| == |st.threads|
    && -1 <= st.s.db < |st.threads| && -1 <= st.s.tls < |st.threads|
  }

  predicate LocksOk(st: State, i: nat)
    requires i < |st.threads|
  {
    HoldsDb(st.threads[i]) == (st.s.db == i) && HoldsTls(st.threads[i]) == (st.s.tls == i)
  }

  // The SuperVersion that a thread has in hand.
  predicate InHand(pc: Pc) {
    pc.Read? && (pc.rs.Unlocking? || pc.rs.Using? || pc.rs.Referenced?)
  }

  predicate Mentions(s: Shared, pc: Pc) {
    match pc
    case Read(rs, v) => (rs.Want? || rs.Locked? || v < |s.refs|)
    case Leave(_, v) => v < |s.refs|
    case Exit(es, v) => es.LoadSlot? || v < |s.refs|
    case Install(is_, old_, k, got) =>
      is_.Enter? || is_.Publish? ||
      (old_ < |s.refs| && old_ != s.current && forall j :: 0 <= j < |got| ==> got[j] == old_ || got[j] == s.current)
    case Broken => false
    case _ => true
  }

  predicate PcOk(s: Shared, i: nat, pc: Pc) {
    && Mentions(s, pc)
    && (if Reading(pc) then !SlotAt(s, i).Cached? else !SlotAt(s, i).InUse?)
    && (SlotAt(s, i).Cached? ==> SlotAt(s, i).sv < |s.refs|)
  }

  // An installer has published a successor of v but not yet scraped slot k.
  predicate Pending(st: State, k: nat, v: nat) {
    && 0 <= st.s.db < |st.threads|
    && var pc := st.threads[st.s.db];
       pc.Install? && pc.old_ == v && (pc.is_.LockTls? || (pc.is_.Scrape? && pc.k <= k))
  }

  // v is the current SuperVersion, or slot k will still be scraped.
  predicate Good(st: State, k: nat, v: nat) {
    v == st.s.current || Pending(st, k, v)
  }

  // v is what slot k caches, or what its thread will put back or drop at exit.
  predicate Claims(s: Shared, k: nat, pc: Pc, v: nat) {
    || SlotAt(s, k) == Cached(v)
    || (SlotAt(s, k).InUse? && InHand(pc) && pc.v == v)
    || pc == Exit(DropSlot, v)
  }

  // Whatever slot k may serve is current unless its scrape is still to come.
  ghost predicate Fresh(st: State, k: nat)
    requires k < |st.threads|
  {
    forall v: nat {:trigger Good(st, k, v)} :: Claims(st.s, k, st.threads[k], v) ==> Good(st, k, v)
  }

  ghost predicate Inv(st: State) {
    && Shape(st)
    && (forall v :: 0 <= v < |st.s.refs| ==> Counted(st, v) && CleanedOnce(st, v))
    && (forall i :: 0 <= i < |st.threads| ==> LocksOk(st, i))
    && (forall i :: 0 <= i < |st.threads| ==> PcOk(st.s, i, st.threads[i]))
    && (forall k :: 0 <= k < |st.threads| ==> Fresh(st, k))
  }

  // -- local effect of a step ---------------------------------------------------------------------------

  // The slot that a step of thread i may write.
  function Written(i: nat, pc: Pc): nat {
    if pc.Install? && pc.is_.Scrape? then pc.k else i
  }

  // The change of refs[v] is accounted for.
  predicate Balanced(s: Shared, pc: Pc, s': Shared, pc': Pc, w: nat, v: nat) {
    && Refs(s', v) - Refs(s, v)
       == One(v == s'.current) - One(v == s.current) + InSlot(SlotAt(s', w), v) - InSlot(SlotAt(s, w), v)
          + Own(pc', v) - Own(pc, v) + Outside(s', v) - Outside(s, v)
    && |s'.slots| == |s.slots| && (w < |s.slots| ==> s'.slots == s.slots[w := s'.slots[w]])
    && (w >= |s.slots| ==> s'.slots == s.slots)
  }

  predicate Shaped(s: Shared, i: nat) {
    |s.refs| == |s.cleaned| == |s.outside| && s.current < |s.refs| && i < |s.slots|
  }

  lemma IdleBalanced(s: Shared, i: nat, ch: Choice, v: nat)
    requires Shaped(s, i) && PcOk(s, i, Idle)
    ensures var (s', pc') := Next(s, i, Idle, ch); pc' != Broken ==> Balanced(s, Idle, s', pc', i, v)
  {
  }

  lemma ReadBalanced(s: Shared, i: nat, pc: Pc, ch: Choice, v: nat)
    requires Shaped(s, i) && PcOk(s, i, pc) && pc.Read?
    ensures var (s', pc') := Next(s, i, pc, ch); pc' != Broken ==> Balanced(s, pc, s', pc', i, v)
  {
  }

  lemma LeaveBalanced(s: Shared, i: nat, pc: Pc, ch: Choice, v: nat)
    requires Shaped(s, i) && PcOk(s, i, pc) && pc.Leave?
    ensures var (s', pc') := Next(s, i, pc, ch); pc' != Broken ==> Balanced(s, pc, s', pc', i, v)
  {
  }

  lemma ExitBalanced(s: Shared, i: nat, pc: Pc, ch: Choice, v: nat)
    requires Shaped(s, i) && PcOk(s, i, pc) && pc.Exit?
    ensures var (s', pc') := Next(s, i, pc, ch); pc' != Broken ==> Balanced(s, pc, s', pc', i, v)
  {
  }

  lemma {:induction false} CountSnoc(p: seq<nat>, x: nat, v: nat)
    ensures Count(p + [x], v) == Count(p, v) + One(x == v)
  {
    if p != [] {
      assert (p + [x])[1..] == p[1..] + [x];
      CountSnoc(p[1..], x, v);
    }
  }

  lemma InstallBalanced(s: Shared, i: nat, pc: Pc, ch: Choice, v: nat)
    requires Shaped(s, i) && PcOk(s, i, pc) && pc.Install?
    ensures var (s', pc') := Next(s, i, pc, ch); pc' != Broken ==> Balanced(s, pc, s', pc', Written(i, pc), v)
  {
    hide Balanced, Next;
    if pc.is_.Scrape? { ScrapeBalanced(s, i, pc, ch, v); }
    else if pc.is_.Enter? || pc.is_.Publish? || pc.is_.LockTls? { PublishBalanced(s, i, pc, ch, v); }
    else { RetireBalanced(s, i, pc, ch, v); }
  }

  lemma PublishBalanced(s: Shared, i: nat, pc: Pc, ch: Choice, v: nat)
    requires Shaped(s, i) && PcOk(s, i, pc) && pc.Install? && (pc.is_.Enter? || pc.is_.Publish? || pc.is_.LockTls?)
    ensures var (s', pc') := Next(s, i, pc, ch); pc' != Broken ==> Balanced(s, pc, s', pc', i, v)
  {
    hide PcOk, SetSlot, AddRef;
  }

  lemma ScrapeBalanced(s: Shared, i: nat, pc: Pc, ch: Choice, v: nat)
    requires Shaped(s, i) && PcOk(s, i, pc) && pc.Install? && pc.is_.Scrape?
    ensures var (s', pc') := Next(s, i, pc, ch); pc' != Broken ==> Balanced(s, pc, s', pc', pc.k, v)
  {
    hide PcOk, Count;
    if pc.k < |s.slots| && s.slots[pc.k].Cached? { CountSnoc(pc.got, s.slots[pc.k].sv, v); }
  }

  lemma RetireBalanced(s: Shared, i: nat, pc: Pc, ch: Choice, v: nat)
    requires Shaped(s, i) && PcOk(s, i, pc) && pc.Install?
    requires pc.is_.UnrefScraped? || pc.is_.UnrefOld? || pc.is_.CleanOld? || pc.is_.Finish?
    ensures var (s', pc') := Next(s, i, pc, ch); pc' != Broken ==> Balanced(s, pc, s', pc', i, v)
  {
    hide SetSlot;
  }

  lemma StepBalanced(s: Shared, i: nat, pc: Pc, ch: Choice, v: nat)
    requires Shaped(s, i) && PcOk(s, i, pc)
    ensures var (s', pc') := Next(s, i, pc, ch); pc' != Broken ==> Balanced(s, pc, s', pc', Written(i, pc), v)
  {
    hide Balanced, NextRead, NextLeave, NextExit, NextInstall, NextIdle;
    match pc
    case Idle => IdleBalanced(s, i, ch, v);
    case Dead => DeadBalanced(s, i, v);
    case Read(_, _) => ReadBalanced(s, i, pc, ch, v);
    case Leave(_, _) => LeaveBalanced(s, i, pc, ch, v);
    case Exit(_, _) => ExitBalanced(s, i, pc, ch, v);
    case Install(_, _, _, _) => InstallBalanced(s, i, pc, ch, v);
  }

  lemma DeadBalanced(s: Shared, i: nat, v: nat)
    requires i < |s.slots|
    ensures Balanced(s, Dead, s, Dead, i, v)
  {
  }

  // A reference is only added to a SuperVersion that has one.
  predicate Positive(s: Shared, pc: Pc) {
    && Refs(s, s.current) > 0
    && (pc.Read? && pc.rs.Using? ==> Refs(s, pc.v) > 0)
  }

  // Cleanup stays due once per SuperVersion without references.
  predicate DutyKept(s: Shared, pc: Pc, s': Shared, pc': Pc, v: nat) {
    Cleaned(s', v) + Duty(pc', v) - One(Refs(s', v) == 0) == Cleaned(s, v) + Duty(pc, v) - One(Refs(s, v) == 0)
  }

  lemma StepDuty(s: Shared, i: nat, pc: Pc, ch: Choice, v: nat)
    requires Shaped(s, i) && PcOk(s, i, pc) && Positive(s, pc) && v < |s.refs|
    ensures var (s', pc') := Next(s, i, pc, ch); pc' != Broken ==> DutyKept(s, pc, s', pc', v)
  {
    hide DutyKept, NextRead, NextLeave, NextExit, NextInstall, NextIdle;
    match pc
    case Idle => IdleDuty(s, i, ch, v);
    case Dead => DeadDuty(s, v);
    case Read(_, _) => ReadDuty(s, i, pc, ch, v);
    case Leave(_, _) => LeaveDuty(s, i, pc, ch, v);
    case Exit(_, _) => ExitDuty(s, i, pc, ch, v);
    case Install(_, _, _, _) => InstallDuty(s, i, pc, ch, v);
  }

  lemma DeadDuty(s: Shared, v: nat)
    ensures DutyKept(s, Dead, s, Dead, v)
  {
  }

  lemma IdleDuty(s: Shared, i: nat, ch: Choice, v: nat)
    requires Shaped(s, i) && v < |s.refs|
    ensures var (s', pc') := Next(s, i, Idle, ch); pc' != Broken ==> DutyKept(s, Idle, s', pc', v)
  {
  }

  lemma ReadDuty(s: Shared, i: nat, pc: Pc, ch: Choice, v: nat)
    requires Shaped(s, i) && PcOk(s, i, pc) && Positive(s, pc) && pc.Read? && v < |s.refs|
    ensures var (s', pc') := Next(s, i, pc, ch); pc' != Broken ==> DutyKept(s, pc, s', pc', v)
  {
  }

  lemma LeaveDuty(s: Shared, i: nat, pc: Pc, ch: Choice, v: nat)
    requires Shaped(s, i) && PcOk(s, i, pc) && pc.Leave? && v < |s.refs|
    ensures var (s', pc') := Next(s, i, pc, ch); pc' != Broken ==> DutyKept(s, pc, s', pc', v)
  {
  }

  lemma ExitDuty(s: Shared, i: nat, pc: Pc, ch: Choice, v: nat)
    requires Shaped(s, i) && PcOk(s, i, pc) && pc.Exit? && v < |s.refs|
    ensures var (s', pc') := Next(s, i, pc, ch); pc' != Broken ==> DutyKept(s, pc, s', pc', v)
  {
  }

  lemma InstallDuty(s: Shared, i: nat, pc: Pc, ch: Choice, v: nat)
    requires Shaped(s, i) && PcOk(s, i, pc) && pc.Install? && v < |s.refs|
    ensures var (s', pc') := Next(s, i, pc, ch); pc' != Broken ==> DutyKept(s, pc, s', pc', v)
  {
  }

  // -- assertions of the code hold ------------------------------------------------------------------------

  lemma {:induction false} OwnNonNegative(pc: Pc, v: nat)
    ensures Own(pc, v) >= 0 && Duty(pc, v) >= 0
  {
  }

  // Whoever accounts for references to v knows that the count is at least that.
  lemma OwnBound(st: State, i: nat, v: nat)
    requires Counted(st, v) && i < |st.threads|
    ensures Refs(st.s, v) >= One(v == st.s.current) + Own(st.threads[i], v)
  {
    hide Own, InSlot;
    forall j | 0 <= j < |st.threads| ensures Owns(st.threads, v)[j] >= 0 { OwnNonNegative(st.threads[j], v); }
    SumBoundsEach(Owns(st.threads, v), i);
    SlotsNonNegative(st.s.slots, v);
  }

  lemma SlotsNonNegative(slots: seq<Slot>, v: nat)
    ensures Sum(InSlots(slots, v)) >= 0
  {
    SumNonNegative(InSlots(slots, v));
  }

  lemma OwnPair(st: State, i: nat, j: nat, v: nat)
    requires Counted(st, v) && i < |st.threads| && j < |st.threads| && i != j
    ensures Refs(st.s, v) >= Own(st.threads[i], v) + Own(st.threads[j], v)
  {
    hide Own, InSlot;
    forall k | 0 <= k < |st.threads| ensures Owns(st.threads, v)[k] >= 0 { OwnNonNegative(st.threads[k], v); }
    if i < j { SumBoundsPair(Owns(st.threads, v), i, j); } else { SumBoundsPair(Owns(st.threads, v), j, i); }
    SlotsNonNegative(st.s.slots, v);
  }

  // A thread whose duty is to clean up v finds no references.
  lemma DutyBound(st: State, i: nat, v: nat)
    requires CleanedOnce(st, v) && i < |st.threads| && Duty(st.threads[i], v) > 0
    ensures Refs(st.s, v) == 0 && Cleaned(st.s, v) == 0
  {
    hide Duty;
    forall j | 0 <= j < |st.threads| ensures Duties(st.threads, v)[j] >= 0 { OwnNonNegative(st.threads[j], v); }
    SumBoundsEach(Duties(st.threads, v), i);
  }

  lemma NotBroken(st: State, i: nat, ch: Choice)
    requires Inv(st) && i < |st.threads|
    ensures Next(st.s, i, st.threads[i], ch).1 != Broken
  {
    hide Counted, CleanedOnce, Pending, LocksOk, Fresh;
    var pc := st.threads[i];
    assert PcOk(st.s, i, pc);
    match pc
    case Idle =>
    case Dead =>
    case Read(rs, v) => if rs.Surplus? { OwnBound(st, i, v); }
    case Leave(ls, v) => if ls.Unref? { OwnBound(st, i, v); } else { DutyBound(st, i, v); }
    case Exit(es, v) => if es.DropSlot? { LastSlotRef(st, i, v); }
    case Install(is_, old_, k, got) => InstallNotBroken(st, i, ch);
  }

  lemma LastSlotRef(st: State, i: nat, v: nat)
    requires Inv(st) && i < |st.threads| && st.threads[i] == Exit(DropSlot, v)
    ensures Refs(st.s, v) >= 2
  {
    hide Counted, CleanedOnce, LocksOk;
    assert PcOk(st.s, i, st.threads[i]) && Fresh(st, i);
    assert Counted(st, v) && Good(st, i, v);
    if v == st.s.current { OwnBound(st, i, v); }
    else { OwnPair(st, i, st.s.db, v); }
  }

  lemma InstallNotBroken(st: State, i: nat, ch: Choice)
    requires Inv(st) && i < |st.threads| && st.threads[i].Install?
    ensures Next(st.s, i, st.threads[i], ch).1 != Broken
  {
    hide Counted, CleanedOnce, Pending, LocksOk, Fresh;
    var pc := st.threads[i];
    assert PcOk(st.s, i, pc);
    if pc.is_.UnrefScraped? && pc.got != [] {
      assert pc.got[0] == pc.old_ || pc.got[0] == st.s.current;
      assert Own(pc, pc.got[0]) + One(pc.got[0] == st.s.current) >= 2;
      OwnBound(st, i, pc.got[0]);
    } else if pc.is_.UnrefOld? { OwnBound(st, i, pc.old_); }
    else if pc.is_.CleanOld? { DutyBound(st, i, pc.old_); }
  }

  lemma IsPositive(st: State, i: nat)
    requires Inv(st) && i < |st.threads|
    ensures Positive(st.s, st.threads[i])
  {
    hide Counted, CleanedOnce, Pending, LocksOk, Fresh;
    var pc := st.threads[i];
    assert PcOk(st.s, i, pc);
    OwnBound(st, i, st.s.current);
    OwnNonNegative(pc, st.s.current);
    if pc.Read? && pc.rs.Using? { OwnBound(st, i, pc.v); }
  }

  // -- every step keeps the invariant ----------------------------------------------------------------------

  function StepState(st: State, i: nat, ch: Choice): State
    requires i < |st.threads|
  {
    var (s', pc') := Next(st.s, i, st.threads[i], ch);
    State(s', st.threads[i := pc'])
  }

  // Mutexes: what a step may change.
  lemma LockStep(s: Shared, i: nat, pc: Pc, ch: Choice)
    requires i < |s.slots| && HoldsDb(pc) == (s.db == i) && HoldsTls(pc) == (s.tls == i) && -1 <= s.db && -1 <= s.tls
    ensures var (s', pc') := Next(s, i, pc, ch);
      pc' != Broken ==>
        && HoldsDb(pc') == (s'.db == i) && HoldsTls(pc') == (s'.tls == i)
        && (s'.db == s.db || (s.db == -1 && s'.db == i) || (s.db == i && s'.db == -1))
        && (s'.tls == s.tls || (s.tls == -1 && s'.tls == i) || (s.tls == i && s'.tls == -1))
  {
  }

  // What a scrape finds is the old SuperVersion or the current one.
  predicate Scrapes(s: Shared, pc: Pc) {
    pc.Install? && pc.is_.Scrape? && SlotAt(s, pc.k).Cached? ==>
      SlotAt(s, pc.k).sv == pc.old_ || SlotAt(s, pc.k).sv == s.current
  }

  // What a step of thread i may change for others.
  ghost predicate Effect(s: Shared, i: nat, pc: Pc, s': Shared) {
    && |s'.slots| == |s.slots| && |s.refs| <= |s'.refs| && |s'.refs| == |s'.cleaned| == |s'.outside|
    && s'.current < |s'.refs|
    && (s'.current == s.current || (pc.Install? && pc.is_.Publish?))
    && forall j: nat {:trigger SlotAt(s', j)} :: j != i ==>
         SlotAt(s', j) == SlotAt(s, j) || (SlotAt(s', j) == Obsolete && pc.Install? && pc.is_.Scrape? && j == pc.k)
  }

  lemma StepEffect(s: Shared, i: nat, pc: Pc, ch: Choice)
    requires Shaped(s, i) && PcOk(s, i, pc)
    ensures Effect(s, i, pc, Next(s, i, pc, ch).0)
  {
    hide Refs, Outside;
  }

  // The thread's own state.
  lemma OwnPcOk(s: Shared, i: nat, pc: Pc, ch: Choice)
    requires Shaped(s, i) && PcOk(s, i, pc) && Scrapes(s, pc)
    ensures var (s', pc') := Next(s, i, pc, ch); pc' != Broken ==> PcOk(s', i, pc')
  {
    hide Refs;
    if pc.Install? {
      if pc.is_.Scrape? { ScrapePcOk(s, i, pc, ch); } else { InstallPcOk(s, i, pc, ch); }
    }
  }

  lemma ScrapePcOk(s: Shared, i: nat, pc: Pc, ch: Choice)
    requires Shaped(s, i) && PcOk(s, i, pc) && pc.Install? && pc.is_.Scrape? && Scrapes(s, pc)
    ensures var (s', pc') := Next(s, i, pc, ch); pc' != Broken ==> PcOk(s', i, pc')
  {
  }

  lemma InstallPcOk(s: Shared, i: nat, pc: Pc, ch: Choice)
    requires Shaped(s, i) && PcOk(s, i, pc) && pc.Install? && !pc.is_.Scrape?
    ensures var (s', pc') := Next(s, i, pc, ch); pc' != Broken ==> PcOk(s', i, pc')
  {
    hide Refs, Outside, SetSlot;
  }

  // The state of another thread.
  lemma OtherPcOk(s: Shared, i: nat, pc: Pc, s': Shared, j: nat, other: Pc)
    requires Effect(s, i, pc, s') && j != i && PcOk(s, j, other) && (HoldsDb(pc) ==> !HoldsDb(other))
    ensures PcOk(s', j, other)
  {
  }

  // -- freshness ---------------------------------------------------------------------------------------------

  // Nothing gets stale unless slot k is scraped.
  lemma GoodKept(st: State, i: nat, ch: Choice, k: nat, v: nat)
    requires Inv(st) && i < |st.threads| && k < |st.threads| && Good(st, k, v)
    ensures var st' := StepState(st, i, ch);
      Good(st', k, v) || (st.threads[i].Install? && st.threads[i].is_.Scrape? && st.threads[i].k == k)
  {
    hide Counted, CleanedOnce, Fresh;
    var pc := st.threads[i];
    NotBroken(st, i, ch);
    assert LocksOk(st, i) && PcOk(st.s, i, pc);
    LockStep(st.s, i, pc, ch);
    StepEffect(st.s, i, pc, ch);
    if pc.Install? && HoldsDb(pc) { InstallerGood(st, i, ch, k, v); }
    else if st.s.db >= 0 && st.s.db != i { assert StepState(st, i, ch).threads[st.s.db] == st.threads[st.s.db]; }
  }

  lemma InstallerGood(st: State, i: nat, ch: Choice, k: nat, v: nat)
    requires Shape(st) && i < |st.threads| && k < |st.threads| && Good(st, k, v) && st.s.db == i
    requires st.threads[i].Install? && !st.threads[i].is_.Enter? && Next(st.s, i, st.threads[i], ch).1 != Broken
    ensures var st' := StepState(st, i, ch);
      Good(st', k, v) || (st.threads[i].is_.Scrape? && st.threads[i].k == k)
  {
    hide AddClean, AddRef, Refs;
    assert AddRefKeeps(st.s) by { Keeps(st.s); }
  }

  ghost predicate AddRefKeeps(s: Shared) {
    && (forall v: nat, d: int {:trigger AddRef(s, v, d)} :: AddRef(s, v, d) == s.(refs := AddRef(s, v, d).refs))
    && (forall v: nat {:trigger AddClean(s, v)} :: AddClean(s, v) == s.(cleaned := AddClean(s, v).cleaned))
  }

  lemma Keeps(s: Shared)
    ensures AddRefKeeps(s)
  {
  }

  // A step of the thread itself: it claims nothing new but the current version.
  lemma OwnClaims(s: Shared, i: nat, pc: Pc, ch: Choice, v: nat)
    requires Shaped(s, i) && PcOk(s, i, pc)
    ensures var (s', pc') := Next(s, i, pc, ch);
      pc' != Broken && Claims(s', i, pc', v) ==> Claims(s, i, pc, v) || (v == s.current && pc == Read(Locked, pc.v))
  {
    hide Refs, Outside;
  }

  lemma FreshStep(st: State, i: nat, ch: Choice, k: nat)
    requires Inv(st) && i < |st.threads| && k < |st.threads|
    ensures Fresh(StepState(st, i, ch), k)
  {
    hide Counted, CleanedOnce, PcOk, Next, Good, Pending, Claims;
    var st' := StepState(st, i, ch);
    forall v: nat | Claims(st'.s, k, st'.threads[k], v) ensures Good(st', k, v) { ClaimStep(st, i, ch, k, v); }
  }

  lemma ClaimStep(st: State, i: nat, ch: Choice, k: nat, v: nat)
    requires Inv(st) && i < |st.threads| && k < |st.threads|
    requires var st' := StepState(st, i, ch); Claims(st'.s, k, st'.threads[k], v)
    ensures Good(StepState(st, i, ch), k, v)
  {
    hide Counted, CleanedOnce, Next, Pending;
    var pc := st.threads[i];
    assert PcOk(st.s, i, pc) && LocksOk(st, i) && LocksOk(st, k);
    NotBroken(st, i, ch);
    StepEffect(st.s, i, pc, ch);
    if k == i { OwnClaims(st.s, i, pc, ch, v); }
    if pc.Install? && pc.is_.Scrape? && pc.k == k { ScrapedSlot(st.s, i, pc, ch); }
    else {
      assert Claims(st.s, k, st.threads[k], v) || v == st.s.current;
      assert Fresh(st, k);
      assert Good(st, k, v);
      GoodKept(st, i, ch, k, v);
    }
  }

  lemma ScrapedSlot(s: Shared, i: nat, pc: Pc, ch: Choice)
    requires pc.Install? && pc.is_.Scrape? && pc.k < |s.slots|
    ensures SlotAt(Next(s, i, pc, ch).0, pc.k) == Obsolete && Next(s, i, pc, ch).1.Install?
  {
  }

  // -- all of it --------------------------------------------------------------------------------------------

  // A SuperVersion that does not exist yet is mentioned nowhere.
  lemma NewVersion(st: State, v: nat)
    requires Shape(st) && v >= |st.s.refs| && forall i :: 0 <= i < |st.threads| ==> PcOk(st.s, i, st.threads[i])
    ensures Sum(InSlots(st.s.slots, v)) == 0 && Sum(Owns(st.threads, v)) == 0 && Sum(Duties(st.threads, v)) == 0
  {
    forall i | 0 <= i < |st.threads|
      ensures Own(st.threads[i], v) == 0 && Duty(st.threads[i], v) == 0 && InSlot(st.s.slots[i], v) == 0
    {
      assert PcOk(st.s, i, st.threads[i]);
      NotMentioned(st.s, st.threads[i], v);
    }
    SumZero(InSlots(st.s.slots, v));
    SumZero(Owns(st.threads, v));
    SumZero(Duties(st.threads, v));
  }

  lemma NotMentioned(s: Shared, pc: Pc, v: nat)
    requires Mentions(s, pc) && v >= |s.refs| && s.current < |s.refs|
    ensures Duty(pc, v) == 0 && Own(pc, v) == 0
  {
    if pc.Install? && (pc.is_.Scrape? || pc.is_.UnrefScraped?) { CountNone(pc.got, v); }
  }

  lemma {:induction false} CountNone(p: seq<nat>, v: nat)
    requires forall j :: 0 <= j < |p| ==> p[j] != v
    ensures Count(p, v) == 0
  {
    if p != [] { CountNone(p[1..], v); }
  }

  lemma CountedStep(st: State, i: nat, ch: Choice, v: nat)
    requires Inv(st) && i < |st.threads| && v < |StepState(st, i, ch).s.refs|
    ensures Counted(StepState(st, i, ch), v)
  {
    hide Next, Own, InSlot, CleanedOnce, Fresh, Mentions, Refs, Outside;
    var pc := st.threads[i];
    var (s', pc') := Next(st.s, i, pc, ch);
    assert PcOk(st.s, i, pc);
    NotBroken(st, i, ch);
    StepBalanced(st.s, i, pc, ch, v);
    OwnsUpdate(st.threads, i, pc', v);
    var w := Written(i, pc);
    if w < |st.s.slots| { InSlotsUpdate(st.s.slots, w, s'.slots[w], v); }
    if v >= |st.s.refs| { NewVersion(st, v); NoSuch(st.s, v); }
    else { assert Counted(st, v); }
  }

  lemma NoSuch(s: Shared, v: nat)
    requires |s.refs| == |s.cleaned| == |s.outside| <= v && s.current < |s.refs|
    ensures Refs(s, v) == 0 && Outside(s, v) == 0 && Cleaned(s, v) == 0
  {
  }

  lemma CleanedStep(st: State, i: nat, ch: Choice, v: nat)
    requires Inv(st) && i < |st.threads| && v < |StepState(st, i, ch).s.refs|
    ensures CleanedOnce(StepState(st, i, ch), v)
  {
    hide Next, Duty, Counted, Fresh, Mentions, Positive;
    var pc := st.threads[i];
    var (s', pc') := Next(st.s, i, pc, ch);
    assert PcOk(st.s, i, pc);
    NotBroken(st, i, ch);
    IsPositive(st, i);
    DutiesUpdate(st.threads, i, pc', v);
    if v < |st.s.refs| {
      StepDuty(st.s, i, pc, ch, v);
      assert CleanedOnce(st, v);
    } else {
      NewVersion(st, v);
      JustPublished(st.s, i, pc, ch, v);
    }
  }

  lemma JustPublished(s: Shared, i: nat, pc: Pc, ch: Choice, v: nat)
    requires Shaped(s, i) && |s.refs| <= v < |Next(s, i, pc, ch).0.refs|
    ensures var (s', pc') := Next(s, i, pc, ch);
      Refs(s', v) == 1 && Cleaned(s', v) == 0 && Duty(pc', v) == 0 && Duty(pc, v) == 0
  {
  }

  lemma InvStep(st: State, i: nat, ch: Choice)
    requires Inv(st) && i < |st.threads|
    ensures Inv(StepState(st, i, ch))
  {
    hide Next, Counted, CleanedOnce, Fresh, PcOk, Effect;
    var st', pc := StepState(st, i, ch), st.threads[i];
    assert PcOk(st.s, i, pc) && LocksOk(st, i);
    NotBroken(st, i, ch);
    LockStep(st.s, i, pc, ch);
    StepEffect(st.s, i, pc, ch);
    EffectShape(st.s, i, pc, st'.s);
    IsScrapes(st, i);
    OwnPcOk(st.s, i, pc, ch);
    forall v | 0 <= v < |st'.s.refs| ensures Counted(st', v) && CleanedOnce(st', v) {
      CountedStep(st, i, ch, v);
      CleanedStep(st, i, ch, v);
    }
    forall j | 0 <= j < |st.threads| ensures LocksOk(st', j) && PcOk(st'.s, j, st'.threads[j]) && Fresh(st', j) {
      assert LocksOk(st, j) && PcOk(st.s, j, st.threads[j]);
      if j != i { OtherPcOk(st.s, i, pc, st'.s, j, st.threads[j]); }
      FreshStep(st, i, ch, j);
    }
  }

  lemma EffectShape(s: Shared, i: nat, pc: Pc, s': Shared)
    requires Effect(s, i, pc, s')
    ensures |s'.slots| == |s.slots| && |s'.refs| == |s'.cleaned| == |s'.outside| && s'.current < |s'.refs|
  {
  }

  lemma IsScrapes(st: State, i: nat)
    requires Inv(st) && i < |st.threads|
    ensures Scrapes(st.s, st.threads[i])
  {
    hide Counted, CleanedOnce, PcOk;
    var pc := st.threads[i];
    assert LocksOk(st, i);
    if pc.Install? && pc.is_.Scrape? && SlotAt(st.s, pc.k).Cached? {
      assert Fresh(st, pc.k);
      assert Good(st, pc.k, SlotAt(st.s, pc.k).sv);
    }
  }
}
