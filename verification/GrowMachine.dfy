// Growing AutoHyperClockTable: threads take grow slots, wait for the grow that
// feeds into theirs, publish the new shift on two heads, and catch length_info_ up
// without waiting, while inserters derive their home from a length that may be out
// of date. Only the shift of each head matters here; the chains behind the heads
// are the subject of SplitForGrow. Every interleaving of these steps is a run.
module GrowMachine {
  import opened Probing
  import opened LinearHashing

  // The shift of each head (0: the slot was never used), the length published in
  // length_info_, and the next slot to be taken for growing.
  datatype Shared = Shared(shifts: seq<nat>, length: nat, frontier: nat)

  // What a thread does after catching up.
  datatype After = Stop | Resume(hash: nat, home: nat, shift: nat)

  datatype Pc =
    | Idle
    | Overflow                                            // about to reset grow_frontier_
    | Taken(g: nat)                                       // waiting for the old old home
    | Ready(g: nat)                                       // about to store the new head
    | Stored(g: nat)                                      // about to CAS the old head
    | Load(known: nat, then_: After)                      // CatchUpLengthInfoNoWait
    | Check(known: nat, seen: nat, then_: After)
    | Publish(known: nat, seen: nat, then_: After)
    | Insert(hash: nat, home: nat, shift: nat)            // about to load the head
    | Inserted
    | Broken                                              // an assertion of the code failed

  datatype Choice = Nothing | Grow | BeginInsert(hash: nat) | CasFails

  function HeadShift(s: Shared, i: nat): nat {
    if i < |s.shifts| then s.shifts[i] else 0
  }

  function SetShift(s: Shared, i: nat, shift: nat): Shared {
    if i < |s.shifts| then s.(shifts := s.shifts[i := shift]) else s
  }

  function OldHome(g: nat): nat {
    if g == 0 then 0 else Parent(g)
  }

  function OldOldHome(g: nat): nat {
    if g < 2 then 0 else g % Pow2(Log2(g) - 1)
  }

  function Leave(a: After): Pc {
    match a
    case Stop => Idle
    case Resume(hash, home, shift) => Insert(hash, home, shift)
  }

  // One atomic step of one thread.
  function Next(s: Shared, pc: Pc, ch: Choice): (Shared, Pc)
    requires s.length >= 2
  {
    match pc
    case Idle =>
      (match ch
       case Grow => (s.(frontier := s.frontier + 1), if s.frontier >= |s.shifts| then Overflow else Taken(s.frontier))
       case BeginInsert(hash) => (s, Insert(hash, Home(s.length, hash), HomeShift(s.length, hash)))
       case _ => (s, Idle))
    case Overflow => (s.(frontier := |s.shifts|), Idle)
    case Taken(g) => (s, if HeadShift(s, OldOldHome(g)) >= Log2(g) then Ready(g) else pc)
    case Ready(g) =>
      // SplitForGrow expects an unused new head and the old shift on the old head
      if HeadShift(s, g) != 0 || HeadShift(s, OldHome(g)) != Log2(g) then (s, Broken)
      else (SetShift(s, g, Log2(g) + 1), Stored(g))
    case Stored(g) =>
      if ch.CasFails? then (s, pc) else (SetShift(s, OldHome(g), Log2(g) + 1), Load(g, Stop))
    case Load(known, a) => (s, Check(known, s.length, a))
    case Check(known, seen, a) =>
      if seen > known then (s, Leave(a))
      else if seen < known && HeadShift(s, OldHome(seen)) <= Log2(seen) then (s, Leave(a))
      else (s, Publish(known, seen, a))
    case Publish(known, seen, a) =>
      if s.length == seen then (s.(length := seen + 1), Check(known, seen + 1, a))
      else (s, Check(known, s.length, a))
    case Insert(hash, home, shift) =>
      var head := HeadShift(s, home);
      if head < shift then (s, Broken)
      else if head == shift then (s, if ch.CasFails? then pc else Inserted)
      else (s, Load(home + Pow2(shift), Resume(hash, hash % Pow2(shift + 1), shift + 1)))
    case Inserted => (s, pc)
    case Broken => (s, pc)
  }

  // -- the invariant ------------------------------------------------------------------------------

  // The grow of slot g has published its new shift on the old head. The old head
  // is the last of the two to be written.
  predicate Raised(s: Shared, g: nat) {
    g > 0 && HeadShift(s, OldHome(g)) > Log2(g)
  }

  // Then the new head exists and has it too.
  ghost predicate HeadsOk(s: Shared) {
    forall g: nat {:trigger Raised(s, g)} :: Raised(s, g) ==> g < |s.shifts| && s.shifts[g] > Log2(g)
  }

  // The published length is never ahead of the heads.
  predicate PublishedOk(s: Shared) {
    && 2 <= s.length <= |s.shifts|
    && forall g :: 0 < g < s.length ==> Raised(s, g)
  }

  predicate UntakenOk(s: Shared) {
    && 2 <= s.frontier
    && forall g {:trigger Raised(s, g)} :: s.frontier <= g < |s.shifts| ==> !Raised(s, g) && s.shifts[g] == 0
  }

  ghost predicate Sound(s: Shared) {
    HeadsOk(s) && PublishedOk(s) && UntakenOk(s)
  }

  predicate Growing(pc: Pc) {
    pc.Taken? || pc.Ready? || pc.Stored?
  }

  predicate AfterOk(s: Shared, a: After) {
    a.Resume? ==> InsertOk(s, a.hash, a.home, a.shift)
  }

  predicate InsertOk(s: Shared, hash: nat, home: nat, shift: nat) {
    home == hash % Pow2(shift) && shift > 0 && HeadShift(s, home) >= shift
  }

  // The grows that feed into that of g are complete, and g's own is not.
  predicate Waited(s: Shared, g: nat) {
    HeadShift(s, OldOldHome(g)) >= Log2(g) == HeadShift(s, OldHome(g))
  }

  predicate PcOk(s: Shared, pc: Pc) {
    match pc
    case Taken(g) => 2 <= g < s.frontier && g < |s.shifts| && !Raised(s, g) && s.shifts[g] == 0
    case Ready(g) => 2 <= g < s.frontier && g < |s.shifts| && Waited(s, g) && s.shifts[g] == 0
    case Stored(g) => 2 <= g < s.frontier && g < |s.shifts| && Waited(s, g) && s.shifts[g] == Log2(g) + 1
    case Load(known, a) => Raised(s, known) && known < |s.shifts| && AfterOk(s, a)
    case Check(known, seen, a) => Raised(s, known) && known < |s.shifts| && AfterOk(s, a) && 2 <= seen <= s.length
    case Publish(known, seen, a) =>
      Raised(s, known) && known < |s.shifts| && AfterOk(s, a) && 2 <= seen <= s.length && seen <= known
      && Raised(s, seen)
    case Insert(hash, home, shift) => InsertOk(s, hash, home, shift)
    case Overflow => |s.shifts| <= s.frontier
    case Broken => false
    case _ => true
  }

  ghost predicate Inv(s: Shared, threads: seq<Pc>) {
    && Sound(s)
    && (forall i :: 0 <= i < |threads| ==> PcOk(s, threads[i]))
    && (forall i, j :: 0 <= i < j < |threads| && Growing(threads[i]) && Growing(threads[j]) ==>
          threads[i].g != threads[j].g)
  }

  // -- facts about heads ----------------------------------------------------------------------------

  // Raising head p to shift k + 1 completes the grow of p + 2^k and no other.
  lemma RaiseOne(p: nat, k: nat, g: nat)
    requires g > 0 && OldHome(g) == p && Log2(g) == k
    ensures g == p + Pow2(k)
  {
    ParentOf(g);
  }

  // A slot that was waited for: its old home has reached the shift to split at.
  lemma WaitIsEnough(s: Shared, g: nat)
    requires HeadsOk(s) && 2 <= g < |s.shifts| && HeadShift(s, OldOldHome(g)) >= Log2(g)
    ensures HeadShift(s, OldHome(g)) >= Log2(g)
  {
    hide Pow2;
    var k, p := Log2(g), OldHome(g);
    OldOld(g);
    if p >= Pow2(k - 1) {
      ChildOf(OldOldHome(g), k - 1);
      assert Raised(s, p);
    }
  }

  // The old old home is the old home, or the one the old home was split from.
  lemma OldOld(g: nat)
    requires g >= 2
    ensures var k, p, q := Log2(g), OldHome(g), Pow2(Log2(g) - 1);
      OldOldHome(g) == (if p < q then p else p - q) < q
  {
    var k, p := Log2(g), OldHome(g);
    ParentOf(g);
    Double(k - 1);
    var q := Pow2(k - 1);
    if p < q { DivModUnique(g, q, 2, p); } else { DivModUnique(g, q, 3, p - q); }
  }

  // The home derived from the published length has at least the expected shift.
  lemma PublishedHome(s: Shared, hash: nat)
    requires Sound(s)
    ensures InsertOk(s, hash, Home(s.length, hash), HomeShift(s.length, hash))
  {
    hide Pow2, HeadsOk, UntakenOk, HeadShift;
    var n, m := s.length, Log2(s.length);
    var h := hash % Pow2(m);
    ParentOf(n);
    NextBit(hash, m);
    if h < Parent(n) { LowHome(s, h); } else { HighHome(s, h); }
  }

  // A home below the threshold and its twin both use the larger shift.
  lemma LowHome(s: Shared, h: nat)
    requires Sound(s) && h < Parent(s.length)
    ensures HeadShift(s, h) > Log2(s.length) && HeadShift(s, h + Pow2(Log2(s.length))) > Log2(s.length)
  {
    var m := Log2(s.length);
    ParentOf(s.length);
    ChildOf(h, m);
    assert Raised(s, h + Pow2(m));
  }

  lemma HighHome(s: Shared, h: nat)
    requires Sound(s) && Parent(s.length) <= h < Pow2(Log2(s.length))
    ensures HeadShift(s, h) >= Log2(s.length) > 0
  {
    var m := Log2(s.length);
    ParentOf(s.length);
    Double(m - 1);
    if h < Pow2(m - 1) {
      ChildOf(h, m - 1);
      assert Raised(s, h + Pow2(m - 1));
    } else {
      Log2Unique(h, m - 1);
      assert Raised(s, h);
    }
  }

  // A head that is ahead of the inserter's shift: the next hash bit leads to a
  // head that has the next shift.
  lemma Climb(s: Shared, hash: nat, home: nat, shift: nat)
    requires Sound(s) && InsertOk(s, hash, home, shift) && HeadShift(s, home) > shift
    ensures Raised(s, home + Pow2(shift))
    ensures InsertOk(s, hash, hash % Pow2(shift + 1), shift + 1)
  {
    ChildOf(home, shift);
    NextBit(hash, shift);
    assert Raised(s, home + Pow2(shift));
  }

  // Climbing one shift at a time reaches a head whose shift matches.
  lemma {:induction false} ClimbEnds(s: Shared, hash: nat, home: nat, shift: nat) returns (k: nat)
    requires Sound(s) && InsertOk(s, hash, home, shift)
    ensures k >= shift && HeadShift(s, hash % Pow2(k)) == k
    decreases |s.shifts| - Pow2(shift)
  {
    hide Sound;
    k := shift;
    if HeadShift(s, home) > shift {
      Climb(s, hash, home, shift);
      RaisedInside(s, home + Pow2(shift));
      Double(shift);
      k := ClimbEnds(s, hash, hash % Pow2(shift + 1), shift + 1);
    }
  }

  // No inserter is ever further up than the array is long.
  lemma ShiftBounded(s: Shared, hash: nat, home: nat, shift: nat)
    requires Sound(s) && InsertOk(s, hash, home, shift)
    ensures Pow2(shift - 1) <= |s.shifts|
  {
    Double(shift - 1);
    if home < Pow2(shift - 1) {
      ChildOf(home, shift - 1);
      assert Raised(s, home + Pow2(shift - 1));
    }
  }

  // -- steps --------------------------------------------------------------------------------------------

  // Heads only ever gain.
  predicate Gained(s: Shared, s': Shared) {
    && |s'.shifts| == |s.shifts| && s.length <= s'.length
    && (s.frontier <= s'.frontier || |s.shifts| <= s'.frontier)
    && forall i :: 0 <= i < |s.shifts| ==> s.shifts[i] <= s'.shifts[i]
  }

  lemma GainedRaised(s: Shared, s': Shared, g: nat)
    requires Gained(s, s') && Raised(s, g)
    ensures Raised(s', g)
  {
  }

  // Sound after a step that completes at most the grow of g.
  lemma SoundAfter(s: Shared, s': Shared, g: nat)
    requires Sound(s) && Gained(s, s') && s'.length == s.length && s'.frontier == s.frontier && 0 < g < s.frontier
    requires forall x: nat {:trigger Raised(s', x)} :: Raised(s', x) ==> Raised(s, x) || x == g
    requires forall x: nat {:trigger HeadShift(s', x)} :: s.frontier <= x ==> HeadShift(s', x) == HeadShift(s, x)
    requires Raised(s', g) ==> g < |s'.shifts| && s'.shifts[g] > Log2(g)
    ensures Sound(s')
  {
    hide Pow2, Log2, Parent, OldHome;
    forall x: nat | Raised(s', x) ensures x < |s'.shifts| && s'.shifts[x] > Log2(x) {
      if x != g { assert Raised(s, x); }
    }
    forall x | 0 < x < s'.length ensures Raised(s', x) { assert Raised(s, x); GainedRaised(s, s', x); }
    forall x | s'.frontier <= x < |s'.shifts| ensures !Raised(s', x) && s'.shifts[x] == 0 {
      assert !Raised(s, x);
      assert HeadShift(s', x) == HeadShift(s, x);
    }
  }

  // Storing the new head of g: no grow is completed by it.
  lemma StoreOk(s: Shared, g: nat)
    requires Sound(s) && PcOk(s, Ready(g))
    ensures var s' := SetShift(s, g, Log2(g) + 1);
      Sound(s') && PcOk(s', Stored(g)) && Gained(s, s')
      && forall x: nat {:trigger Raised(s', x)} :: Raised(s', x) == Raised(s, x)
  {
    hide Pow2, Log2, Parent, HeadsOk, PublishedOk, UntakenOk;
    var s' := SetShift(s, g, Log2(g) + 1);
    ParentBelow(g);
    OldOldBelow(g);
    forall x: nat ensures Raised(s', x) == Raised(s, x) {
      if x > 0 && OldHome(x) == g { ParentLog(x); }
    }
    NotRaisedYet(s, g);
    SoundAfter(s, s', g);
  }

  lemma NotRaisedYet(s: Shared, g: nat)
    requires Waited(s, g)
    ensures !Raised(s, g)
  {
  }

  lemma OldOldBelow(g: nat)
    requires g >= 2
    ensures OldOldHome(g) < g
  {
    hide Pow2;
    OldOld(g);
    ParentOf(g);
  }

  lemma ParentBelow(g: nat)
    requires g > 0
    ensures OldHome(g) < g
  {
    ParentOf(g);
  }

  lemma ParentLog(x: nat)
    requires x > 0 && OldHome(x) > 0
    ensures Log2(OldHome(x)) < Log2(x)
  {
    var p := OldHome(x);
    ParentOf(x);
    Log2Bounds(p);
    if Log2(p) >= Log2(x) { Pow2Monotone(Log2(x), Log2(p)); }
  }

  // The CAS on the old head completes the grow of g and no other.
  lemma RaiseOk(s: Shared, g: nat)
    requires Sound(s) && PcOk(s, Stored(g))
    ensures var s' := SetShift(s, OldHome(g), Log2(g) + 1);
      Sound(s') && Raised(s', g) && Gained(s, s')
      && forall x: nat {:trigger Raised(s', x)} :: Raised(s', x) == (Raised(s, x) || x == g)
  {
    hide Pow2, Log2, Parent, HeadsOk, PublishedOk, UntakenOk;
    var p, k := OldHome(g), Log2(g);
    var s' := SetShift(s, p, k + 1);
    ParentBelow(g);
    forall x: nat ensures Raised(s', x) == (Raised(s, x) || x == g) {
      if x > 0 && OldHome(x) == p && Log2(x) == k { RaiseOne(p, k, x); RaiseOne(p, k, g); }
    }
    SoundAfter(s, s', g);
  }

  lemma RaisedSame(s: Shared, s': Shared, x: nat)
    requires s'.shifts == s.shifts
    ensures Raised(s', x) == Raised(s, x)
  {
  }

  // Publishing one more slot.
  lemma PublishOk(s: Shared)
    requires Sound(s) && Raised(s, s.length)
    ensures Sound(s.(length := s.length + 1)) && Gained(s, s.(length := s.length + 1))
    ensures Raised(s.(length := s.length + 1), s.length)
  {
    hide Raised;
    SameHeadsSound(s, s.(length := s.length + 1));
    RaisedSame(s, s.(length := s.length + 1), s.length);
  }

  // Taking a grow slot, or giving up on it.
  lemma FrontierOk(s: Shared, frontier: nat)
    requires Sound(s) && (s.frontier <= frontier || |s.shifts| <= frontier)
    ensures var s' := s.(frontier := frontier); Sound(s') && Gained(s, s')
  {
    hide Raised;
    SameHeadsSound(s, s.(frontier := frontier));
  }

  lemma SameHeadsSound(s: Shared, s': Shared)
    requires Sound(s) && s'.shifts == s.shifts && (s.frontier <= s'.frontier || |s.shifts| <= s'.frontier)
    requires s'.length == s.length || (s'.length == s.length + 1 && Raised(s, s.length))
    ensures Sound(s')
  {
    hide Raised, Log2;
    forall x: nat | Raised(s', x) ensures x < |s'.shifts| && s'.shifts[x] > Log2(x) { RaisedSame(s, s', x); }
    forall x | 0 < x < s'.length ensures Raised(s', x) { RaisedSame(s, s', x); }
    forall x | s'.frontier <= x < |s'.shifts| ensures !Raised(s', x) && s'.shifts[x] == 0 {
      RaisedSame(s, s', x);
      assert !Raised(s, x);
    }
    assert Raised(s, s.length) ==> s.length < |s.shifts|;
  }

  // -- every interleaving ---------------------------------------------------------------------------------

  // What one thread's step may do to the grow of slot x, seen by another thread.
  predicate Respects(s: Shared, s': Shared, x: nat) {
    && !Raised(s', x) && HeadShift(s', x) == HeadShift(s, x)
    && (Waited(s, x) ==> Waited(s', x))
    && (x < s.frontier && x < |s.shifts| ==> x < s'.frontier)
  }

  // A grow in progress.
  predicate Unfinished(s: Shared, x: nat) {
    0 < x < s.frontier && !Raised(s, x) && HeadShift(s, x) <= Log2(x) + 1
  }

  // The effect of one step: the thread's own state is fine, heads only gain, and
  // the grow slots that are not this thread's are left alone.
  ghost predicate StepOk(s: Shared, pc: Pc, s': Shared, pc': Pc) {
    && Sound(s') && PcOk(s', pc') && Gained(s, s')
    && (Growing(pc') ==> (Growing(pc) && pc'.g == pc.g) || (!Growing(pc) && pc'.g == s.frontier))
    && (forall x: nat {:trigger Respects(s, s', x)} :: Unfinished(s, x) && !(Growing(pc) && pc.g == x) ==>
          Respects(s, s', x))
  }

  lemma SameHeads(s: Shared, s': Shared)
    requires s'.shifts == s.shifts && s.length <= s'.length && (s.frontier <= s'.frontier || |s.shifts| <= s'.frontier)
    ensures Gained(s, s') && forall x: nat {:trigger Respects(s, s', x)} :: Unfinished(s, x) ==> Respects(s, s', x)
  {
    hide Pow2, Log2, Parent, OldOldHome, OldHome;
  }

  lemma NextOk(s: Shared, pc: Pc, ch: Choice)
    requires Sound(s) && PcOk(s, pc)
    ensures var (s', pc') := Next(s, pc, ch); StepOk(s, pc, s', pc')
  {
    hide PcOk, Sound, Next, StepOk;
    SoundLength(s);
    if Growing(pc) { GrowNext(s, pc, ch); }
    else if pc.Load? || pc.Check? || pc.Publish? { CatchUpNext(s, pc, ch); }
    else { InsertNext(s, pc, ch); }
  }

  lemma SoundLength(s: Shared)
    requires Sound(s)
    ensures 2 <= s.length
  {
  }

  lemma GrowNext(s: Shared, pc: Pc, ch: Choice)
    requires Sound(s) && PcOk(s, pc) && Growing(pc) && 2 <= s.length
    ensures var (s', pc') := Next(s, pc, ch); StepOk(s, pc, s', pc')
  {
    hide Pow2, Log2, Parent, OldOldHome, HeadsOk, PublishedOk, UntakenOk, OldHome, Respects, Unfinished, Gained;
    SameHeads(s, s);
    match pc
    case Taken(g) => if Next(s, pc, ch).1.Ready? { WaitIsEnough(s, g); NotRaised(s, g); }
    case Ready(g) => StoreOk(s, g); StoreRespects(s, g);
    case Stored(g) => if !ch.CasFails? { RaiseOk(s, g); RaiseRespects(s, g); }
  }

  lemma NotRaised(s: Shared, g: nat)
    requires g > 0 && !Raised(s, g)
    ensures HeadShift(s, OldHome(g)) <= Log2(g)
  {
  }

  lemma CatchUpNext(s: Shared, pc: Pc, ch: Choice)
    requires Sound(s) && PcOk(s, pc) && (pc.Load? || pc.Check? || pc.Publish?) && 2 <= s.length
    ensures var (s', pc') := Next(s, pc, ch); StepOk(s, pc, s', pc')
  {
    hide Pow2, Log2, Parent, HeadsOk, UntakenOk, OldHome, Respects, Unfinished, Gained, InsertOk;
    SameHeads(s, s);
    match pc
    case Load(known, a) =>
    case Check(known, seen, a) =>
    case Publish(known, seen, a) =>
      if s.length == seen {
        PublishOk(s);
        RaisedSame(s, s.(length := seen + 1), known);
        SameHeads(s, s.(length := seen + 1));
        AfterGained(s, s.(length := seen + 1), a);
      }
  }

  lemma InsertNext(s: Shared, pc: Pc, ch: Choice)
    requires Sound(s) && PcOk(s, pc) && !Growing(pc) && !pc.Load? && !pc.Check? && !pc.Publish? && 2 <= s.length
    ensures var (s', pc') := Next(s, pc, ch); StepOk(s, pc, s', pc')
  {
    hide Pow2, Log2, Parent, HeadsOk, PublishedOk, OldHome, Respects, Unfinished, Gained, Home, HomeShift;
    SameHeads(s, s);
    match pc
    case Idle =>
      if ch.Grow? {
        FrontierOk(s, s.frontier + 1);
        SameHeads(s, s.(frontier := s.frontier + 1));
        if s.frontier < |s.shifts| { TakenOk(s); }
      } else if ch.BeginInsert? { PublishedHome(s, ch.hash); }
    case Overflow => FrontierOk(s, |s.shifts|); SameHeads(s, s.(frontier := |s.shifts|));
    case Insert(hash, home, shift) =>
      if HeadShift(s, home) > shift {
        Climb(s, hash, home, shift);
        RaisedInside(s, home + Pow2(shift));
      }
    case Inserted =>
  }

  lemma TakenOk(s: Shared)
    requires Sound(s) && s.frontier < |s.shifts|
    ensures PcOk(s.(frontier := s.frontier + 1), Taken(s.frontier))
  {
    hide Pow2, Log2, Parent, HeadsOk, PublishedOk, OldHome;
    assert !Raised(s, s.frontier);
  }

  lemma RaisedInside(s: Shared, g: nat)
    requires Sound(s) && Raised(s, g)
    ensures g < |s.shifts|
  {
  }

  lemma AfterGained(s: Shared, s': Shared, a: After)
    requires Gained(s, s') && AfterOk(s, a)
    ensures AfterOk(s', a)
  {
  }

  lemma StoreRespects(s: Shared, g: nat)
    requires Sound(s) && PcOk(s, Ready(g))
    ensures var s' := SetShift(s, g, Log2(g) + 1);
      forall x: nat {:trigger Respects(s, s', x)} :: Unfinished(s, x) && x != g ==> Respects(s, s', x)
  {
    hide Pow2, Log2, Parent;
    StoreOk(s, g);
    var s' := SetShift(s, g, Log2(g) + 1);
    forall x: nat | Unfinished(s, x) && x != g ensures Respects(s, s', x) {
      if OldHome(x) == g { ParentLog(x); }
      if OldOldHome(x) == g { OldOldLog(x); }
    }
  }

  lemma RaiseRespects(s: Shared, g: nat)
    requires Sound(s) && PcOk(s, Stored(g))
    ensures var s' := SetShift(s, OldHome(g), Log2(g) + 1);
      forall x: nat {:trigger Respects(s, s', x)} :: Unfinished(s, x) && x != g ==> Respects(s, s', x)
  {
    hide Pow2, Log2, Parent;
    RaiseOk(s, g);
    var s' := SetShift(s, OldHome(g), Log2(g) + 1);
    forall x: nat | Unfinished(s, x) && x != g ensures Respects(s, s', x) {
      if OldHome(x) == OldHome(g) && Log2(x) == Log2(g) {
        RaiseOne(OldHome(g), Log2(g), x);
        RaiseOne(OldHome(g), Log2(g), g);
      }
      if OldHome(g) == x { FedBy(s, g); }
    }
  }

  // The old home of a grow that has waited is itself no longer growing.
  lemma FedBy(s: Shared, g: nat)
    requires g >= 2 && Waited(s, g) && OldHome(g) > 0
    ensures !Unfinished(s, OldHome(g))
  {
    hide Pow2;
    var k, p := Log2(g), OldHome(g);
    ParentLog(g);
    OldOld(g);
    if p >= Pow2(k - 1) {
      ChildOf(OldOldHome(g), k - 1);
    } else {
      Log2Bounds(p);
      if Log2(p) >= k - 1 { Pow2Monotone(k - 1, Log2(p)); }
    }
  }

  lemma OldOldLog(x: nat)
    requires x >= 2 && OldOldHome(x) > 0
    ensures Log2(OldOldHome(x)) + 1 < Log2(x)
  {
    hide Pow2;
    OldOld(x);
    var o, k := OldOldHome(x), Log2(x);
    Log2Bounds(o);
    if Log2(o) >= k - 1 { Pow2Monotone(k - 1, Log2(o)); }
  }

  predicate StepOf(s: Shared, threads: seq<Pc>, s': Shared, threads': seq<Pc>, i: nat, ch: Choice) {
    && i < |threads| && s.length >= 2
    && s' == Next(s, threads[i], ch).0 && threads' == threads[i := Next(s, threads[i], ch).1]
  }

  // Another thread's state survives a step.
  lemma PcFrame(s: Shared, s': Shared, pc: Pc)
    requires PcOk(s, pc) && Gained(s, s')
    requires Growing(pc) ==> Respects(s, s', pc.g)
    ensures PcOk(s', pc)
  {
    hide Pow2, Log2, Parent, OldOldHome, OldHome;
  }

  lemma GrowingUnfinished(s: Shared, pc: Pc)
    requires PcOk(s, pc) && Growing(pc)
    ensures Unfinished(s, pc.g) && pc.g < s.frontier
  {
    hide Pow2, Log2, Parent, OldOldHome, OldHome;
  }

  lemma InvStep(s: Shared, threads: seq<Pc>, s': Shared, threads': seq<Pc>, i: nat, ch: Choice)
    requires Inv(s, threads) && StepOf(s, threads, s', threads', i, ch)
    ensures Inv(s', threads')
  {
    hide Next, PcOk, Sound, Respects, Gained, Unfinished;
    SoundLength(s);
    NextOk(s, threads[i], ch);
    forall j | 0 <= j < |threads'| ensures PcOk(s', threads'[j]) {
      if j != i {
        if Growing(threads[j]) { GrowingUnfinished(s, threads[j]); }
        PcFrame(s, s', threads[j]);
      }
    }
    forall j | 0 <= j < |threads| && Growing(threads[j])
      ensures threads[j].g < s.frontier
    {
      GrowingUnfinished(s, threads[j]);
    }
  }

  // -- no deadlock ------------------------------------------------------------------------------------------

  predicate OwnerOf(pc: Pc, g: nat) {
    Growing(pc) && pc.g == g
  }

  predicate Owned(threads: seq<Pc>, g: nat) {
    exists i :: 0 <= i < |threads| && OwnerOf(threads[i], g)
  }

  // Every slot that was taken is grown or still being grown.
  predicate Covered(s: Shared, threads: seq<Pc>) {
    forall g {:trigger Owned(threads, g)} :: 0 < g < s.frontier && g < |s.shifts| ==> Raised(s, g) || Owned(threads, g)
  }

  lemma OwnerNext(s: Shared, pc: Pc, ch: Choice, g: nat)
    requires Sound(s) && PcOk(s, pc) && OwnerOf(pc, g) && 2 <= s.length
    ensures var (s', pc') := Next(s, pc, ch); OwnerOf(pc', g) || Raised(s', g)
  {
    hide Pow2, Log2, Parent, OldOldHome, HeadsOk, PublishedOk, UntakenOk;
    if pc.Stored? { RaiseOk(s, g); }
  }

  lemma FrontierNext(s: Shared, pc: Pc, ch: Choice, g: nat)
    requires Sound(s) && PcOk(s, pc) && 2 <= s.length
    requires var (s', pc') := Next(s, pc, ch); s.frontier <= g < s'.frontier && g < |s.shifts|
    ensures OwnerOf(Next(s, pc, ch).1, g)
  {
    hide Pow2, Log2, Parent, OldOldHome, HeadsOk, PublishedOk, UntakenOk;
  }

  lemma CoveredStep(s: Shared, threads: seq<Pc>, s': Shared, threads': seq<Pc>, i: nat, ch: Choice)
    requires Inv(s, threads) && Covered(s, threads) && StepOf(s, threads, s', threads', i, ch)
    ensures Covered(s', threads')
  {
    hide Next, PcOk, Sound, Raised;
    NextOk(s, threads[i], ch);
    forall g | 0 < g < s'.frontier && g < |s'.shifts| ensures Raised(s', g) || Owned(threads', g) {
      if g >= s.frontier {
        FrontierNext(s, threads[i], ch, g);
        assert OwnerOf(threads'[i], g);
      } else if Raised(s, g) {
        GainedRaised(s, s', g);
      } else {
        assert Owned(threads, g);
        var j :| 0 <= j < |threads| && OwnerOf(threads[j], g);
        if j == i { OwnerNext(s, threads[i], ch, g); }
        assert j != i ==> OwnerOf(threads'[j], g);
        assert !Raised(s', g) ==> OwnerOf(threads'[j], g);
      }
    }
  }

  // The thread growing the first slot that is not yet grown does not wait.
  lemma FirstDoesNotWait(s: Shared, g: nat)
    requires 2 <= g && forall x :: 0 < x < g ==> Raised(s, x)
    ensures HeadShift(s, OldOldHome(g)) >= Log2(g)
  {
    hide Pow2;
    var k, o := Log2(g), OldOldHome(g);
    OldOld(g);
    Log2Bounds(g);
    Double(k - 1);
    ChildOf(o, k - 1);
    assert Raised(s, o + Pow2(k - 1));
  }

  // A thread that can complete a step of its grow right now.
  predicate CanGrow(s: Shared, pc: Pc) {
    Growing(pc) && (pc.Taken? ==> HeadShift(s, OldOldHome(pc.g)) >= Log2(pc.g))
  }

  // Waiting in Grow cannot deadlock: while any grow is in progress, some thread in
  // Grow can go on.
  lemma {:induction false} SomeoneCanGrow(s: Shared, threads: seq<Pc>, g: nat) returns (i: nat)
    requires Inv(s, threads) && Covered(s, threads) && Owned(threads, g)
    ensures i < |threads| && CanGrow(s, threads[i])
    decreases g
  {
    hide Pow2, Log2, Parent, OldOldHome, Raised, Sound;
    var j :| 0 <= j < |threads| && OwnerOf(threads[j], g);
    GrowingUnfinished(s, threads[j]);
    assert PcOk(s, threads[j]);
    if x :| 0 < x < g && !Raised(s, x) {
      assert Owned(threads, x);
      i := SomeoneCanGrow(s, threads, x);
    } else {
      FirstDoesNotWait(s, g);
      i := j;
    }
  }

  // -- the start --------------------------------------------------------------------------------------------

  // The constructor's heads for a starting length in an array of n slots.
  function StartShift(length: nat, i: nat): nat
    requires length >= 2
  {
    var m := Log2(length);
    if i >= length then 0 else if i >= Pow2(m) || i < Parent(length) then m + 1 else m
  }

  function Init(n: nat, length: nat): Shared
    requires 2 <= length <= n
  {
    Shared(seq(n, i requires 0 <= i < n => StartShift(length, i)), length, length)
  }

  // Right after construction exactly the slots in use count as grown.
  lemma InitRaised(n: nat, length: nat, g: nat)
    requires 2 <= length <= n && g > 0
    ensures Raised(Init(n, length), g) <==> g < length
  {
    hide Log2;
    var m, p, k := Log2(length), OldHome(g), Log2(g);
    ParentOf(length);
    ParentOf(g);
    assert p < n ==> Init(n, length).shifts[p] == StartShift(length, p);
    if k > m { Pow2Monotone(m + 1, k); Double(m); } else if k < m { Pow2Monotone(k + 1, m); Double(k); }
  }

  lemma InitInv(n: nat, length: nat, threads: seq<Pc>)
    requires 2 <= length <= n && forall i :: 0 <= i < |threads| ==> threads[i] == Idle
    ensures Inv(Init(n, length), threads) && Covered(Init(n, length), threads)
  {
    hide Log2, Raised;
    var s := Init(n, length);
    forall g: nat | Raised(s, g) ensures g < |s.shifts| && s.shifts[g] > Log2(g) {
      NotZero(s, g);
      InitRaised(n, length, g);
      StartEnough(length, g);
    }
    forall g | 0 < g < length ensures Raised(s, g) { InitRaised(n, length, g); }
    forall g | length <= g < n ensures !Raised(s, g) && s.shifts[g] == 0 { InitRaised(n, length, g); }
  }

  lemma NotZero(s: Shared, g: nat)
    requires Raised(s, g)
    ensures g > 0
  {
  }

  lemma StartEnough(length: nat, g: nat)
    requires length >= 2 && 0 < g < length
    ensures StartShift(length, g) > Log2(g)
  {
    var m := Log2(length);
    Log2Bounds(g);
    Log2Bounds(length);
    Double(m);
    assert Log2(g) <= m by {
      if Log2(g) > m { Pow2Monotone(m + 1, Log2(g)); }
    }
  }

  // -- what every run keeps ---------------------------------------------------------------------------------

  datatype State = State(s: Shared, threads: seq<Pc>)

  ghost predicate Steps(m: State, m': State) {
    exists i, ch :: StepOf(m.s, m.threads, m'.s, m'.threads, i, ch)
  }

  ghost predicate IsRun(run: seq<State>, n: nat, length: nat) {
    && run != [] && 2 <= length <= n && run[0].s == Init(n, length)
    && (forall i :: 0 <= i < |run[0].threads| ==> run[0].threads[i] == Idle)
    && forall k :: 0 <= k < |run| - 1 ==> Steps(run[k], run[k + 1])
  }

  lemma {:induction false} RunInv(run: seq<State>, n: nat, length: nat, k: nat)
    requires IsRun(run, n, length) && k < |run|
    ensures Inv(run[k].s, run[k].threads) && Covered(run[k].s, run[k].threads)
  {
    hide Inv, StepOf, Init, Covered;
    if k == 0 {
      InitInv(n, length, run[0].threads);
    } else {
      RunInv(run, n, length, k - 1);
      assert Steps(run[k - 1], run[k - 1 + 1]);
      var i, ch :| StepOf(run[k - 1].s, run[k - 1].threads, run[k].s, run[k].threads, i, ch);
      InvStep(run[k - 1].s, run[k - 1].threads, run[k].s, run[k].threads, i, ch);
      CoveredStep(run[k - 1].s, run[k - 1].threads, run[k].s, run[k].threads, i, ch);
    }
  }

  // The assertions of DoInsert and SplitForGrow never fail: an inserter never meets
  // a head that lags behind its shift, and a split always finds an unused new head
  // and the old shift on the old head.
  lemma NoAssertionFails(run: seq<State>, n: nat, length: nat, k: nat, i: nat)
    requires IsRun(run, n, length) && k < |run| && i < |run[k].threads|
    ensures run[k].threads[i] != Broken
  {
    RunInv(run, n, length, k);
  }

  // The published length is never ahead: both heads of every published slot carry
  // the shift that readers of that length expect, for every hash.
  lemma PublishedIsReady(run: seq<State>, n: nat, length: nat, k: nat, hash: nat)
    requires IsRun(run, n, length) && k < |run|
    ensures var s := run[k].s;
      && 2 <= s.length <= |s.shifts| && Home(s.length, hash) < s.length
      && s.shifts[Home(s.length, hash)] >= HomeShift(s.length, hash)
  {
    hide IsRun, Home, HomeShift, HeadsOk, UntakenOk;
    RunInv(run, n, length, k);
    PublishedHome(run[k].s, hash);
    HomeInUse(run[k].s.length, hash);
  }

  // In every reachable state with a grow in progress, some thread in Grow can go on.
  lemma GrowNeverStuck(run: seq<State>, n: nat, length: nat, k: nat, i: nat) returns (j: nat)
    requires IsRun(run, n, length) && k < |run| && i < |run[k].threads| && Growing(run[k].threads[i])
    ensures j < |run[k].threads| && CanGrow(run[k].s, run[k].threads[j])
  {
    hide IsRun, Inv, Covered;
    RunInv(run, n, length, k);
    assert OwnerOf(run[k].threads[i], run[k].threads[i].g);
    j := SomeoneCanGrow(run[k].s, run[k].threads, run[k].threads[i].g);
  }

  // No slot is grown by two threads, at any time.
  lemma NoDoubleGrow(run: seq<State>, n: nat, length: nat, k: nat, i: nat, j: nat)
    requires IsRun(run, n, length) && k < |run| && i < j < |run[k].threads|
    requires Growing(run[k].threads[i]) && Growing(run[k].threads[j])
    ensures run[k].threads[i].g != run[k].threads[j].g
  {
    hide IsRun, Sound;
    RunInv(run, n, length, k);
  }

  // Until the old head has been raised, no thread publishes the slot that is being
  // grown: SplitForGrow's assertion about length_info_ holds when it is about to
  // swing the old head.
  lemma NotPublishedEarly(run: seq<State>, n: nat, length: nat, k: nat, i: nat)
    requires IsRun(run, n, length) && k < |run| && i < |run[k].threads| && Growing(run[k].threads[i])
    ensures run[k].s.length <= run[k].threads[i].g
  {
    hide IsRun, HeadsOk, UntakenOk;
    RunInv(run, n, length, k);
    GrowingUnfinished(run[k].s, run[k].threads[i]);
  }

  // In every state of every run: from the published length on, climbing ends at a
  // matching head, for every hash.
  lemma InsertFindsHead(run: seq<State>, n: nat, length: nat, k: nat, hash: nat) returns (shift: nat)
    requires IsRun(run, n, length) && k < |run|
    ensures var s := run[k].s;
      s.length >= 2 && shift >= HomeShift(s.length, hash) && HeadShift(s, hash % Pow2(shift)) == shift
  {
    hide IsRun;
    RunInv(run, n, length, k);
    var s := run[k].s;
    PublishedHome(s, hash);
    shift := ClimbEnds(s, hash, Home(s.length, hash), HomeShift(s.length, hash));
  }

  // And however the heads move under it, an inserter climbs at most once per bit of the
  // array length.
  lemma ClimbBounded(run: seq<State>, n: nat, length: nat, k: nat, i: nat)
    requires IsRun(run, n, length) && k < |run| && i < |run[k].threads| && run[k].threads[i].Insert?
    ensures run[k].threads[i].shift > 0 && Pow2(run[k].threads[i].shift - 1) <= |run[k].s.shifts|
  {
    hide IsRun;
    RunInv(run, n, length, k);
    var pc := run[k].threads[i];
    assert PcOk(run[k].s, pc);
    ShiftBounded(run[k].s, pc.hash, pc.home, pc.shift);
  }
}
