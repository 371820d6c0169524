// What Grow, CatchUpLengthInfoNoWait and the chain insertion of DoInsert achieve, from
// start to end, in any interleaving.
module GrowTheorems {
  import opened Probing
  import opened Sums
  import opened LinearHashing
  import opened GrowMachine

  predicate CatchingUp(pc: Pc) {
    pc.Load? || pc.Check? || pc.Publish?
  }

  // Thread i takes the step from run[k] to run[k + 1].
  predicate StepsAt(run: seq<State>, k: nat, i: nat, ch: Choice)
    requires k + 1 < |run|
  {
    StepOf(run[k].s, run[k].threads, run[k + 1].s, run[k + 1].threads, i, ch)
  }

  // From one state to the next thread i takes a step or stays where it is.
  lemma OneStep(run: seq<State>, n: nat, length: nat, k: nat, i: nat) returns (ch: Choice)
    requires IsRun(run, n, length) && k + 1 < |run| && i < |run[k].threads|
    ensures i < |run[k + 1].threads| && 2 <= run[k].s.length
    ensures StepsAt(run, k, i, ch) || run[k + 1].threads[i] == run[k].threads[i]
    ensures Gained(run[k].s, run[k + 1].s)
  {
    hide Init, Next, PcOk, Sound, Gained, Respects;
    assert Steps(run[k], run[k + 1]);
    var t: nat, c :| StepOf(run[k].s, run[k].threads, run[k + 1].s, run[k + 1].threads, t, c);
    ch := c;
    RunInv(run, n, length, k);
    NextOk(run[k].s, run[k].threads[t], c);
  }

  // -- inserting -----------------------------------------------------------------------------------------

  // The thread is inserting an entry with this hash.
  predicate Inserts(pc: Pc, hash: nat) {
    || (pc.Insert? && pc.hash == hash)
    || (CatchingUp(pc) && pc.then_.Resume? && pc.then_.hash == hash)
  }

  lemma InsertsNext(s: Shared, pc: Pc, ch: Choice, hash: nat)
    requires 2 <= s.length && Inserts(pc, hash) && !Next(s, pc, ch).1.Broken?
    ensures Inserts(Next(s, pc, ch).1, hash) || (Next(s, pc, ch).1.Inserted? && pc.Insert?)
    ensures pc.Insert? && Next(s, pc, ch).1.Inserted? ==> HeadShift(s, pc.home) == pc.shift && Next(s, pc, ch).0 == s
  {
    hide Pow2, Log2, Home, HomeShift, OldHome;
  }

  // Thread i starts to insert at state j and has not finished before state k.
  ghost predicate InsertCall(run: seq<State>, n: nat, length: nat, i: nat, hash: nat, j: nat, k: nat) {
    && IsRun(run, n, length) && j < k < |run| && i < |run[j].threads| && run[j].threads[i] == Idle
    && StepsAt(run, j, i, BeginInsert(hash))
    && forall m :: j < m < k ==> i < |run[m].threads| && !run[m].threads[i].Inserted?
  }

  lemma {:induction false} InInsert(run: seq<State>, n: nat, length: nat, i: nat, hash: nat, j: nat, k: nat)
    requires InsertCall(run, n, length, i, hash, j, k)
    ensures i < |run[k].threads| && (Inserts(run[k].threads[i], hash) || run[k].threads[i].Inserted?)
    decreases k
  {
    hide Init, Steps, Next, PcOk, Sound, Inserts, Gained;
    if j + 1 < k {
      InInsert(run, n, length, i, hash, j, k - 1);
      var ch := OneStep(run, n, length, k - 1, i);
      if StepsAt(run, k - 1, i, ch) {
        NotBroken(run, n, length, k, i);
        InsertsNext(run[k - 1].s, run[k - 1].threads[i], ch, hash);
      }
    } else {
      InsertBegins(run[j].s, hash);
    }
  }

  lemma NotBroken(run: seq<State>, n: nat, length: nat, k: nat, i: nat)
    requires IsRun(run, n, length) && k < |run| && i < |run[k].threads|
    ensures !run[k].threads[i].Broken?
  {
    hide IsRun;
    NoAssertionFails(run, n, length, k, i);
  }

  lemma InsertBegins(s: Shared, hash: nat)
    requires 2 <= s.length
    ensures Inserts(Next(s, Idle, BeginInsert(hash)).1, hash)
  {
    hide Home, HomeShift;
  }

  // An insertion that is done was done at the head of the home of its hash, at the shift
  // of that head.
  lemma InsertsAtHome(run: seq<State>, n: nat, length: nat, i: nat, hash: nat, j: nat, k: nat) returns (shift: nat)
    requires InsertCall(run, n, length, i, hash, j, k) && i < |run[k].threads| && run[k].threads[i].Inserted?
    ensures i < |run[k - 1].threads| && run[k - 1].threads[i] == Insert(hash, hash % Pow2(shift), shift)
    ensures HeadShift(run[k].s, hash % Pow2(shift)) == shift
  {
    hide Init, Steps, Next, Sound, Inserts, Gained;
    if j + 1 < k {
      InInsert(run, n, length, i, hash, j, k - 1);
      var ch := OneStep(run, n, length, k - 1, i);
      NotBroken(run, n, length, k, i);
      assert StepsAt(run, k - 1, i, ch);
      InsertsNext(run[k - 1].s, run[k - 1].threads[i], ch, hash);
      InsertsHash(run[k - 1].threads[i], hash);
      InsertsHash(run[k].threads[i], hash);
      RunInv(run, n, length, k - 1);
      assert PcOk(run[k - 1].s, run[k - 1].threads[i]);
      shift := run[k - 1].threads[i].shift;
    } else {
      InsertBegins(run[j].s, hash);
      InsertsHash(run[k].threads[i], hash);
    }
  }

  lemma InsertsHash(pc: Pc, hash: nat)
    ensures Inserts(pc, hash) ==> !pc.Inserted? && (pc.Insert? ==> pc.hash == hash)
  {
  }

  // The thread is catching up with `known` before it goes on as `then_` says.
  predicate CatchesUp(pc: Pc, known: nat, a: After) {
    CatchingUp(pc) && pc.known == known && pc.then_ == a
  }

  lemma CatchUpNext(s: Shared, pc: Pc, ch: Choice, known: nat, a: After)
    requires 2 <= s.length && CatchesUp(pc, known, a)
    ensures CatchesUp(Next(s, pc, ch).1, known, a) || (Next(s, pc, ch).1 == Leave(a) && pc.Check?)
    ensures pc.Check? && !CatchingUp(Next(s, pc, ch).1) ==>
      pc.seen > known || (pc.seen < known && HeadShift(s, OldHome(pc.seen)) <= Log2(pc.seen))
  {
    hide Pow2, Log2, OldHome;
  }

  // Thread i starts to catch up in state j + 1 and has not finished before state k.
  ghost predicate CatchUpCall(
      run: seq<State>, n: nat, length: nat, i: nat, known: nat, a: After, j: nat, k: nat) {
    && IsRun(run, n, length) && j < k < |run| && i < |run[j + 1].threads| && run[j + 1].threads[i] == Load(known, a)
    && forall m :: j < m < k ==> i < |run[m].threads| && CatchingUp(run[m].threads[i])
  }

  lemma {:induction false} InCatchUp(
      run: seq<State>, n: nat, length: nat, i: nat, known: nat, a: After, j: nat, k: nat)
    requires CatchUpCall(run, n, length, i, known, a, j, k)
    ensures i < |run[k].threads| && (CatchesUp(run[k].threads[i], known, a) || run[k].threads[i] == Leave(a))
    decreases k
  {
    hide Init, Steps, Next, PcOk, Sound, Gained;
    if j + 1 < k {
      InCatchUp(run, n, length, i, known, a, j, k - 1);
      var ch := OneStep(run, n, length, k - 1, i);
      if StepsAt(run, k - 1, i, ch) { CatchUpNext(run[k - 1].s, run[k - 1].threads[i], ch, known, a); }
    }
  }

  // An inserter that meets a head with a larger shift pulls out one more bit of its hash:
  // it comes back with the next shift and the home of that shift, after having tried to
  // publish the slot that this bit leads to.
  lemma ClimbsOneBit(
      run: seq<State>, n: nat, length: nat, i: nat, hash: nat, home: nat, shift: nat, ch: Choice, j: nat, k: nat)
    requires IsRun(run, n, length) && j < k < |run| && i < |run[j].threads| && StepsAt(run, j, i, ch)
    requires run[j].threads[i] == Insert(hash, home, shift) && HeadShift(run[j].s, home) > shift
    requires forall m :: j < m < k ==> i < |run[m].threads| && CatchingUp(run[m].threads[i])
    requires i < |run[k].threads| && !CatchingUp(run[k].threads[i])
    ensures run[j + 1].threads[i].Load? && run[j + 1].threads[i].known == home + Pow2(shift)
    ensures run[k].threads[i] == Insert(hash, hash % Pow2(shift + 1), shift + 1)
  {
    hide Init, Steps, PcOk, Sound, Pow2, Log2;
    InCatchUp(run, n, length, i, home + Pow2(shift), Resume(hash, hash % Pow2(shift + 1), shift + 1), j, k);
  }

  // -- publishing ------------------------------------------------------------------------------------------

  // Whoever catches up goes on until everything up to `known` is published or the next
  // slot is not grown yet.
  lemma CatchUpPublishes(
      run: seq<State>, n: nat, length: nat, i: nat, known: nat, a: After, j: nat, k: nat)
    requires CatchUpCall(run, n, length, i, known, a, j, k) && i < |run[k].threads| && !CatchingUp(run[k].threads[i])
    ensures run[k - 1].s.length > known || !Raised(run[k - 1].s, run[k - 1].s.length)
  {
    hide Init, Steps, Next, Gained, Log2, Pow2, OldHome, HeadsOk, UntakenOk;
    InCatchUp(run, n, length, i, known, a, j, k - 1);
    var ch := OneStep(run, n, length, k - 1, i);
    CatchUpNext(run[k - 1].s, run[k - 1].threads[i], ch, known, a);
    RunInv(run, n, length, k - 1);
    var s, pc := run[k - 1].s, run[k - 1].threads[i];
    assert PcOk(s, pc) && StepsAt(run, k - 1, i, ch);
    if pc.seen <= known {
      assert !Raised(s, pc.seen);
      assert pc.seen == s.length;
    }
  }

  // -- growing ------------------------------------------------------------------------------------------------

  // The thread is growing slot g, or has raised it and is catching up.
  predicate Grows(s: Shared, pc: Pc, g: nat) {
    (Growing(pc) && pc.g == g) || (CatchesUp(pc, g, Stop) && Raised(s, g))
  }

  lemma GrowsNext(s: Shared, pc: Pc, ch: Choice, g: nat)
    requires Sound(s) && PcOk(s, pc) && 2 <= s.length && Grows(s, pc, g) && !Next(s, pc, ch).1.Broken?
    ensures var (s', pc') := Next(s, pc, ch); Grows(s', pc', g) || (pc'.Idle? && Raised(s', g))
  {
    hide Pow2, Log2, Parent, HeadsOk, UntakenOk, PublishedOk, OldOldHome;
    if pc.Stored? { RaiseDone(s, g); }
  }

  lemma RaiseDone(s: Shared, g: nat)
    requires 0 < g < |s.shifts|
    ensures Raised(SetShift(s, OldHome(g), Log2(g) + 1), g)
  {
    hide Log2, Pow2, Parent;
    ParentBelow(g);
  }

  // Thread i takes slot g for growing in state j and is not idle again before state k.
  ghost predicate GrowCall(run: seq<State>, n: nat, length: nat, i: nat, j: nat, k: nat) {
    && IsRun(run, n, length) && j < k < |run| && i < |run[j].threads| && run[j].threads[i] == Idle
    && StepsAt(run, j, i, Grow) && run[j].s.frontier < |run[j].s.shifts|
    && forall m :: j < m < k ==> i < |run[m].threads| && !run[m].threads[i].Idle?
  }

  lemma {:induction false} InGrow(run: seq<State>, n: nat, length: nat, i: nat, j: nat, k: nat)
    requires GrowCall(run, n, length, i, j, k)
    ensures i < |run[k].threads|
    ensures Grows(run[k].s, run[k].threads[i], run[j].s.frontier)
      || (run[k].threads[i].Idle? && Raised(run[k].s, run[j].s.frontier))
    decreases k
  {
    hide Init, Steps, Next, PcOk, Sound, Gained, Raised;
    var g := run[j].s.frontier;
    if j + 1 < k {
      InGrow(run, n, length, i, j, k - 1);
      var ch := OneStep(run, n, length, k - 1, i);
      if StepsAt(run, k - 1, i, ch) {
        NotBroken(run, n, length, k, i);
        RunInv(run, n, length, k - 1);
        GrowsNext(run[k - 1].s, run[k - 1].threads[i], ch, g);
      } else if Raised(run[k - 1].s, g) {
        GainedRaised(run[k - 1].s, run[k].s, g);
      }
    } else {
      GrowBegins(run[j].s);
    }
  }

  lemma GrowBegins(s: Shared)
    requires 2 <= s.length && s.frontier < |s.shifts|
    ensures Next(s, Idle, Grow).1 == Taken(s.frontier)
  {
  }

  // A Grow that returns has put the new shift on both heads of the slot that it took.
  lemma GrowRaises(run: seq<State>, n: nat, length: nat, i: nat, j: nat, k: nat)
    requires GrowCall(run, n, length, i, j, k) && i < |run[k].threads| && run[k].threads[i].Idle?
    ensures var s, g := run[k].s, run[j].s.frontier;
      g > 0 && HeadShift(s, OldHome(g)) > Log2(g) && HeadShift(s, g) > Log2(g)
  {
    hide IsRun, Pow2, Log2, OldHome, PcOk;
    InGrow(run, n, length, i, j, k);
    RunInv(run, n, length, k);
    assert Raised(run[k].s, run[j].s.frontier);
  }

  // -- the grow frontier ---------------------------------------------------------------------------------------

  // Threads that have taken a slot behind the end of the array.
  ghost function Overflows(threads: seq<Pc>): (xs: seq<int>)
    ensures |xs| == |threads|
  {
    seq(|threads|, i requires 0 <= i < |threads| => if threads[i].Overflow? then 1 else 0)
  }

  ghost predicate FrontierWithin(m: State) {
    m.s.frontier <= |m.s.shifts| + Sum(Overflows(m.threads))
  }

  lemma FrontierStep(s: Shared, pc: Pc, ch: Choice)
    requires 2 <= s.length
    ensures var (s', pc') := Next(s, pc, ch);
      var was, now := if pc.Overflow? then 1 else 0, if pc'.Overflow? then 1 else 0;
      |s'.shifts| == |s.shifts| && (s'.frontier - s.frontier <= now - was || s'.frontier <= |s.shifts| + now)
  {
    hide Pow2, Log2, Home, HomeShift, OldHome, OldOldHome;
  }

  // Each failed attempt to grow is taken back: grow_frontier_ is ahead of the array by no
  // more than the threads that are about to reset it, in every state of every run.
  lemma {:induction false} FrontierBounded(run: seq<State>, n: nat, length: nat, k: nat)
    requires IsRun(run, n, length) && k < |run|
    ensures FrontierWithin(run[k])
  {
    hide Next, Steps;
    if k == 0 {
      SumNonNegative(Overflows(run[0].threads));
    } else {
      FrontierBounded(run, n, length, k - 1);
      assert Steps(run[k - 1], run[k - 1 + 1]);
      FrontierKept(run[k - 1], run[k]);
    }
  }

  lemma FrontierKept(m: State, m': State)
    requires Steps(m, m') && FrontierWithin(m)
    ensures FrontierWithin(m')
  {
    hide Next;
    var i: nat, ch :| StepOf(m.s, m.threads, m'.s, m'.threads, i, ch);
    FrontierStep(m.s, m.threads[i], ch);
    var now := if m'.threads[i].Overflow? then 1 else 0;
    assert Overflows(m'.threads) == Overflows(m.threads)[i := now];
    SumUpdate(Overflows(m.threads), i, now);
    SumNonNegative(Overflows(m'.threads));
    SumBoundsEach(Overflows(m'.threads), i);
  }

  // -- how far a catch-up gets ------------------------------------------------------------------------------

  // The first slot from g on that is not grown.
  function Gap(s: Shared, g: nat): (r: nat)
    requires g <= |s.shifts|
    ensures g <= r <= |s.shifts| && (r < |s.shifts| ==> !Raised(s, r)) && forall x :: g <= x < r ==> Raised(s, x)
    decreases |s.shifts| - g
  {
    if g < |s.shifts| && Raised(s, g) then Gap(s, g + 1) else g
  }

  // n steps of a thread that nobody disturbs.
  function Solo(s: Shared, pc: Pc, n: nat): (Shared, Pc)
    requires s.length >= 2
    decreases n
  {
    if n == 0 then (s, pc)
    else
      var (s', pc') := Next(s, pc, Nothing);
      if s'.length >= 2 then Solo(s', pc', n - 1) else (s, pc)
  }

  // A catch-up that nobody disturbs publishes up to and including `known`, but stops at
  // the first slot that is not grown.
  function CaughtUp(s: Shared, known: nat): nat
    requires s.length <= |s.shifts|
  {
    if s.length > known then s.length
    else if Gap(s, s.length) <= known then Gap(s, s.length) else known + 1
  }

  lemma {:induction false} CatchUpFrom(s: Shared, known: nat, a: After) returns (n: nat)
    requires 2 <= s.length <= |s.shifts| && known < |s.shifts| && Raised(s, known)
    ensures Solo(s, Check(known, s.length, a), n) == (s.(length := CaughtUp(s, known)), Leave(a))
    decreases |s.shifts| - s.length
  {
    hide Pow2, Log2, OldHome;
    var at, seen := Check(known, s.length, a), s.length;
    if seen > known || (seen < known && !Raised(s, seen)) {
      n := 1;
      assert Solo(s, Leave(a), 0) == (s, Leave(a));
    } else {
      var s' := s.(length := seen + 1);
      GapSame(s, s', seen + 1);
      n := CatchUpFrom(s', known, a);
      assert Solo(s, Publish(known, seen, a), n + 1) == Solo(s', Check(known, seen + 1, a), n);
      n := n + 2;
    }
  }

  lemma {:induction false} GapSame(s: Shared, s': Shared, g: nat)
    requires s'.shifts == s.shifts && g <= |s.shifts|
    ensures Gap(s', g) == Gap(s, g)
    decreases |s.shifts| - g
  {
    if g < |s.shifts| { GapSame(s, s', g + 1); }
  }

  // So the published length is the first slot that is not grown exactly if no slot behind
  // `known` was grown before all up to it were.
  lemma CatchUpAlone(s: Shared, known: nat, a: After) returns (n: nat, s': Shared)
    requires 2 <= s.length <= |s.shifts| && known < |s.shifts| && Raised(s, known)
    ensures Solo(s, Load(known, a), n) == (s', Leave(a)) && s' == s.(length := s'.length)
    ensures s.length <= known ==>
      (s'.length == Gap(s, s.length) <==> Gap(s, s.length) <= known + 1)
    ensures s.length > known ==> s' == s
  {
    hide Pow2, Log2, OldHome;
    n := CatchUpFrom(s, known, a);
    n := n + 1;
    s' := s.(length := CaughtUp(s, known));
  }

  // -- a length that lags behind ----------------------------------------------------------------------------

  ghost predicate Reaches(m: State, n: nat, length: nat) {
    exists run :: IsRun(run, n, length) && run[|run| - 1] == m
  }

  lemma ReachesStart(m: State, n: nat, length: nat)
    requires 2 <= length <= n && m.s == Init(n, length) && forall i :: 0 <= i < |m.threads| ==> m.threads[i] == Idle
    ensures Reaches(m, n, length)
  {
    hide Init;
    assert IsRun([m], n, length);
  }

  // One more step of one of two threads.
  lemma Then(m: State, n: nat, length: nat, i: nat, ch: Choice, s': Shared, pc': Pc) returns (m': State)
    requires Reaches(m, n, length) && i < |m.threads| == 2 && m.s.length >= 2
    requires Next(m.s, m.threads[i], ch) == (s', pc')
    ensures Reaches(m', n, length) && m' == State(s', if i == 0 then [pc', m.threads[1]] else [m.threads[0], pc'])
  {
    hide Init, Next;
    var run :| IsRun(run, n, length) && run[|run| - 1] == m;
    m' := State(s', m.threads[i := pc']);
    var run' := run + [m'];
    assert StepOf(m.s, m.threads, m'.s, m'.threads, i, ch);
    forall k | 0 <= k < |run'| - 1 ensures Steps(run'[k], run'[k + 1]) {
      if k < |run| - 1 { assert run'[k] == run[k] && run'[k + 1] == run[k + 1]; }
    }
    assert IsRun(run', n, length);
  }

  lemma ExampleSlots()
    ensures Log2(4) == 2 == Log2(5) && OldHome(4) == 0 && OldHome(5) == 1 && OldOldHome(4) == 0 && OldOldHome(5) == 1
  {
    assert Pow2(1) == 2 && Pow2(2) == 4;
  }

  lemma ExampleInit()
    ensures Init(6, 4) == Shared([2, 2, 2, 2, 0, 0], 4, 4)
  {
    ExampleSlots();
    assert Parent(4) == 0 && Pow2(2) == 4;
  }

  // Thread 1 grows slot 5 before thread 0 has grown slot 4, so that it cannot publish it;
  // thread 0 then publishes slot 4 and no more. Nobody is growing or catching up any more,
  // and slot 5 is grown and not published.
  lemma LagExample() returns (m: State)
    ensures Reaches(m, 6, 4) && m.threads == [Idle, Idle] && m.s.length == 5 && Raised(m.s, 5)
  {
    hide Reaches, Init, Log2, Pow2, OldHome, OldOldHome, Parent;
    ExampleSlots();
    ExampleInit();
    var s := Init(6, 4);
    m := State(s, [Idle, Idle]);
    ReachesStart(m, 6, 4);
    m := Then(m, 6, 4, 0, Grow, s.(frontier := 5), Taken(4));
    s := s.(frontier := 6);
    m := Then(m, 6, 4, 1, Grow, s, Taken(5));
    m := Then(m, 6, 4, 1, Nothing, s, Ready(5));
    assert s.shifts[5 := 3] == [2, 2, 2, 2, 0, 3];
    s := s.(shifts := [2, 2, 2, 2, 0, 3]);
    m := Then(m, 6, 4, 1, Nothing, s, Stored(5));
    assert s.shifts[1 := 3] == [2, 3, 2, 2, 0, 3];
    s := s.(shifts := [2, 3, 2, 2, 0, 3]);
    m := Then(m, 6, 4, 1, Nothing, s, Load(5, Stop));
    m := Then(m, 6, 4, 1, Nothing, s, Check(5, 4, Stop));
    m := Then(m, 6, 4, 1, Nothing, s, Idle);
    m := LagContinues(m);
  }

  lemma LagContinues(m0: State) returns (m: State)
    requires Reaches(m0, 6, 4) && m0 == State(Shared([2, 3, 2, 2, 0, 3], 4, 6), [Taken(4), Idle])
    ensures Reaches(m, 6, 4) && m.threads == [Idle, Idle] && m.s.length == 5 && Raised(m.s, 5)
  {
    hide Reaches, Log2, Pow2, OldHome, OldOldHome, Parent;
    ExampleSlots();
    m := Then(m0, 6, 4, 0, Nothing, m0.s, Ready(4));
    assert m.s.shifts[4 := 3] == [2, 3, 2, 2, 3, 3];
    var s := m.s.(shifts := [2, 3, 2, 2, 3, 3]);
    m := Then(m, 6, 4, 0, Nothing, s, Stored(4));
    assert s.shifts[0 := 3] == [3, 3, 2, 2, 3, 3];
    s := s.(shifts := [3, 3, 2, 2, 3, 3]);
    m := Then(m, 6, 4, 0, Nothing, s, Load(4, Stop));
    m := Then(m, 6, 4, 0, Nothing, s, Check(4, 4, Stop));
    m := Then(m, 6, 4, 0, Nothing, s, Publish(4, 4, Stop));
    s := s.(length := 5);
    m := Then(m, 6, 4, 0, Nothing, s, Check(4, 5, Stop));
    m := Then(m, 6, 4, 0, Nothing, s, Idle);
  }
}
