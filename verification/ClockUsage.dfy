// The assertion of ReclaimEntryUsage: usage_ covers the charge that is given back. It
// holds in every run exactly when the settings never change to or from a strict one.
module ClockUsage {
  import opened Sums
  import opened ClockTable
  import opened ClockLedger
  import opened ClockAccounts
  import opened ClockInvariant
  import opened ClockTheorems
  import opened ClockCapacity
  import opened ClockOverfull
  import opened ClockAssertions
  import opened ClockRuns

  // One call of SetCapacity or SetStrictCapacityLimit leads from a to b.
  predicate Adjacent(a: Setting, b: Setting) {
    a != b && (a.strict == b.strict || a.capacity == b.capacity)
  }

  // The settings allow a change to or from a strict one.
  ghost predicate Switches(S: iset<Setting>) {
    exists a, b :: a in S && b in S && a.strict && Adjacent(a, b)
  }

  // usage_ covers what is being given back.
  predicate Covered(st: State) {
    forall t :: 0 <= t < |st.threads| && Reclaims(st.threads[t]) ==> st.sh.usage >= st.threads[t].charge
  }

  // The assertion holds in every state of every run with these settings, as long as the
  // total of all charges is a word.
  ghost predicate AlwaysCovered(cfg: Config, S: iset<Setting>) {
    forall run, sched, st :: Leads(cfg, run, sched, st, S, false) && TotalCharge(cfg, st) < WORD ==> Covered(st)
  }

  // -- without a switch ---------------------------------------------------------------------

  lemma SettingStep(cfg: Config, sh: Shared, pc: Pc, ch: Choice)
    requires Shape(cfg, sh) && InRange(cfg, pc)
    ensures var s, s' := SettingOf(sh), SettingOf(Next(cfg, sh, pc, ch).0); s' == s || Adjacent(s, s')
  {
  }

  // What a thread that never saw strict mode has not done.
  predicate LaxPc(pc: Pc) {
    && !Indebted(pc)
    && (pc.Charge? ==> !pc.ch.ChCapacity? && !pc.ch.ChUsage? && !pc.ch.ChCas?)
  }

  lemma LaxStep(cfg: Config, sh: Shared, pc: Pc, ch: Choice)
    requires Shape(cfg, sh) && InRange(cfg, pc) && !sh.strict && LaxPc(pc)
    ensures LaxPc(Next(cfg, sh, pc, ch).1)
  {
  }

  // In a run without a switch the setting is the same strict one throughout, or never strict.
  lemma {:induction false} SettingKept(
      cfg: Config, run: seq<State>, sched: seq<(nat, Choice)>, S: iset<Setting>, k: nat)
    requires IsRun(cfg, run, sched) && k < |run| && !Switches(S)
    requires forall j :: 0 <= j < |run| ==> SettingOf(run[j].sh) in S
    ensures run[0].sh.strict ==> SettingOf(run[k].sh) == SettingOf(run[0].sh)
    ensures !run[0].sh.strict ==> !run[k].sh.strict
  {
    hide Next, Small;
    if k > 0 {
      SettingKept(cfg, run, sched, S, k - 1);
      var st := run[k - 1];
      assert run[k - 1 + 1] == Step(cfg, st, sched[k - 1].0, sched[k - 1].1);
      SettingStep(cfg, st.sh, st.threads[sched[k - 1].0], sched[k - 1].1);
      assert SettingOf(run[k].sh) in S && SettingOf(st.sh) in S;
    }
  }

  lemma {:induction false} LaxRun(cfg: Config, run: seq<State>, sched: seq<(nat, Choice)>, k: nat)
    requires IsRun(cfg, run, sched) && Init(cfg, run[0]) && k < |run|
    requires forall j :: 0 <= j < |run| ==> !run[j].sh.strict
    ensures forall t :: 0 <= t < |run[k].threads| ==> LaxPc(run[k].threads[t])
  {
    hide Next, Small;
    if k > 0 {
      LaxRun(cfg, run, sched, k - 1);
      var st := run[k - 1];
      assert run[k - 1 + 1] == Step(cfg, st, sched[k - 1].0, sched[k - 1].1);
      assert !st.sh.strict;
      LaxStep(cfg, st.sh, st.threads[sched[k - 1].0], sched[k - 1].1);
    }
  }

  // The sizes that the theorem is about: sums of two of them do not wrap around.
  ghost predicate Sane(cfg: Config, S: iset<Setting>) {
    cfg.metadata < HALF_WORD && forall s :: s in S && s.strict ==> s.capacity < HALF_WORD
  }

  // A strict capacity that covers the table leaves nobody in debt, and neither does
  // non-strict mode.
  lemma NoDebts(cfg: Config, run: seq<State>, sched: seq<(nat, Choice)>, st: State, S: iset<Setting>, u: nat)
    requires Leads(cfg, run, sched, st, S, false) && !Switches(S) && Sane(cfg, S) && u < |st.threads|
    requires run[0].sh.strict ==> cfg.metadata <= run[0].sh.capacity
    ensures !Indebted(st.threads[u])
  {
    hide StrictInv, Small, WellFormed;
    var k, cap := |run| - 1, run[0].sh.capacity;
    forall j | 0 <= j < |run|
      ensures run[0].sh.strict ==> StrictAt(run[j].sh, cap)
      ensures !run[0].sh.strict ==> !run[j].sh.strict
    {
      SettingKept(cfg, run, sched, S, j);
    }
    if run[0].sh.strict {
      assert SettingOf(run[0].sh) in S;
      StrictCapacityHolds(cfg, run, sched, cap, k);
      StrictNoDebt(cfg, st, cap, u);
    } else {
      LaxRun(cfg, run, sched, k);
    }
  }

  lemma StrictNoDebt(cfg: Config, st: State, cap: nat, u: nat)
    requires StrictInv(cfg, st, cap) && u < |st.threads|
    ensures !Indebted(st.threads[u])
  {
    hide Inv, TotalCharge;
    assert StrictPc(st.threads[u], cap);
  }

  lemma NoDebtsCovered(cfg: Config, run: seq<State>, sched: seq<(nat, Choice)>, st: State, S: iset<Setting>)
    requires Leads(cfg, run, sched, st, S, false) && !Switches(S) && Sane(cfg, S) && TotalCharge(cfg, st) < WORD
    requires run[0].sh.strict ==> cfg.metadata <= run[0].sh.capacity
    ensures Covered(st)
  {
    hide Inv, TotalCharge, Small, WellFormed, Indebted;
    InitInv(cfg, run[0]);
    RunInv(cfg, run, sched, |run| - 1);
    RunUsageFits(cfg, run, sched, |run| - 1);
    forall u | 0 <= u < |st.threads| ensures !Indebted(st.threads[u]) { NoDebts(cfg, run, sched, st, S, u); }
    forall t | 0 <= t < |st.threads| && Reclaims(st.threads[t]) ensures st.sh.usage >= st.threads[t].charge {
      NoDebtNoUnderflow(cfg, st, t);
    }
  }

  // Below the charge of the table nothing is charged.
  lemma OverfullCovered(cfg: Config, run: seq<State>, sched: seq<(nat, Choice)>, st: State, S: iset<Setting>)
    requires Leads(cfg, run, sched, st, S, false) && !Switches(S) && Sane(cfg, S)
    requires run[0].sh.strict && run[0].sh.capacity < cfg.metadata
    ensures Covered(st)
  {
    hide Small, WellFormed, Uncharged;
    var cap := run[0].sh.capacity;
    forall j | 0 <= j < |run| ensures StrictAt(run[j].sh, cap) { SettingKept(cfg, run, sched, S, j); }
    NothingFits(cfg, run, sched, cap, |run| - 1);
  }

  lemma NoSwitchCovered(cfg: Config, run: seq<State>, sched: seq<(nat, Choice)>, st: State, S: iset<Setting>)
    requires Leads(cfg, run, sched, st, S, false) && !Switches(S) && Sane(cfg, S) && TotalCharge(cfg, st) < WORD
    ensures Covered(st)
  {
    hide Covered, TotalCharge, Small, WellFormed;
    if run[0].sh.strict && run[0].sh.capacity < cfg.metadata {
      OverfullCovered(cfg, run, sched, st, S);
    } else {
      NoDebtsCovered(cfg, run, sched, st, S);
    }
  }

  // -- a strict capacity is replaced by a higher one ------------------------------------------

  // A thread that has read the lower capacity, for which a charge of nothing is enough.
  function Stale(lo: nat): Pc { Charge(ChUsage(false, lo), Sole(0)) }

  // n threads, of which those from 2 to k - 1 have read it.
  function Crew(n: nat, k: nat, lo: nat): seq<Pc> {
    seq(n, i => if 2 <= i < k then Stale(lo) else Idle)
  }

  lemma {:induction false} CrewAsks(x: Scene, sh: Shared, n: nat, k: nat)
    requires 2 <= k <= n && x.t == 0 && sh.strict && x.threads == Crew(n, 2, sh.capacity) && Here(x, sh, Idle)
    ensures Here(x.(threads := Crew(n, k, sh.capacity)), sh, Idle)
  {
    hide Here;
    if k > 2 {
      CrewAsks(x, sh, n, k - 1);
      var lo := sh.capacity;
      var y := x.(threads := Crew(n, k - 1, lo));
      assert y.threads[0 := Idle] == y.threads;
      TakeOver(y, sh, Idle, y.threads, k - 1);
      y := y.(t := k - 1);
      Asks(y, sh, 0);
      assert y.threads[k - 1 := Stale(lo)] == Crew(n, k, lo);
      TakeOver(y, sh, Stale(lo), Crew(n, k, lo), 0);
    }
  }

  // Thread 0 is about to give back e; thread 1 is idle; the threads from k on are stale,
  // and those before it, which no longer are, hold no charge.
  predicate Waiting(threads: seq<Pc>, k: nat, e: nat, lo: nat) {
    && 2 <= k <= |threads| && threads[0] == Remove(RmUsage, KEY, 0, e) && threads[1] == Idle
    && (forall i :: 2 <= i < k ==> Credit(threads[i]) <= 0)
    && (forall i :: k <= i < |threads| ==> threads[i] == Stale(lo))
  }

  function Emptied(cfg: Config, e: nat, u: nat, hi: nat): Shared {
    One(cfg, CLEARED, e, u, 0, 0, Setting(true, hi))
  }

  // One cycle: thread 1 fills the cache up to s above the lower capacity, thread k cuts
  // usage_ down to that, and thread 1 gives everything back.
  lemma Cycle(x: Scene, k: nat, e: nat, lo: nat, hi: nat, u: nat, s: nat) returns (threads: seq<Pc>)
    requires 0 < s <= u <= lo + s <= hi < WORD && x.t == 1 && k < |x.threads|
    requires Waiting(x.threads, k, e, lo) && Here(x, Emptied(x.cfg, e, u, hi), Idle)
    ensures Waiting(threads, k + 1, e, lo) && |threads| == |x.threads|
    ensures Here(x.(threads := threads), Emptied(x.cfg, e, u - s, hi), Idle)
  {
    hide Here;
    var sh, c := Emptied(x.cfg, e, u, hi), lo + s - u;
    Standalone(x, sh, c);
    sh := sh.(usage := lo + s, loose := c);
    assert x.threads[1 := Idle] == x.threads;
    TakeOver(x, sh, Idle, x.threads, k);
    Cuts(x.(t := k), sh, lo, Sole(0));
    var owes := AfterCas(Sole(0), false, lo + s, lo);
    threads := x.threads[k := owes];
    sh := sh.(usage := lo);
    TakeOver(x.(t := k), sh, owes, threads, 1);
    Frees(x.(threads := threads), sh, c);
    assert sh.(usage := U(lo - c), loose := 0) == Emptied(x.cfg, e, u - s, hi);
  }

  // Cycles until nothing is left of usage_.
  lemma {:induction false} Cycles(x: Scene, k: nat, e: nat, lo: nat, hi: nat, u: nat)
    returns (threads: seq<Pc>, done: nat)
    requires lo < hi < WORD && u <= hi && x.t == 1 && u <= |x.threads| - k
    requires Waiting(x.threads, k, e, lo) && Here(x, Emptied(x.cfg, e, u, hi), Idle)
    ensures Waiting(threads, done, e, lo)
    ensures Here(x.(threads := threads), Emptied(x.cfg, e, 0, hi), Idle)
    decreases u
  {
    hide Here, Waiting, Emptied;
    if u == 0 {
      threads, done := x.threads, k;
    } else {
      var s := Min(hi - lo, u);
      threads := Cycle(x, k, e, lo, hi, u, s);
      threads, done := Cycles(x.(threads := threads), k + 1, e, lo, hi, u - s);
    }
  }

  // What thread 0 gives back is all that is left besides the table itself.
  lemma LeftOver(cfg: Config, st: State)
    requires st.threads != [] && forall i :: 0 < i < |st.threads| ==> Credit(st.threads[i]) <= 0
    requires st.sh.loose == 0 && forall i :: 0 <= i < |st.sh.slots| ==> EntryCharge(st.sh.slots[i]) == 0
    ensures TotalCharge(cfg, st) <= cfg.metadata + Credit(st.threads[0])
  {
    SumZero(SlotWeights(ChargeOf(), st.sh.slots));
    SumAtMost(Accounts(CreditOf(), st.threads), 0);
  }

  // All others have read the lower capacity when thread 0 raises it.
  lemma Raises(cfg: Config, n: nat, lo: nat, hi: nat) returns (x: Scene)
    requires lo < hi < WORD && cfg.metadata < WORD && 2 <= n
    ensures x == Scene(cfg, Crew(n, n, lo), 0, iset{Setting(true, lo), Setting(true, hi)}, true)
    ensures Here(x, One(cfg, CLEARED, 0, cfg.metadata, 0, 0, Setting(true, hi)), Idle)
  {
    hide Here;
    var from, to := Setting(true, lo), Setting(true, hi);
    Begins(cfg, n, 0, iset{from, to}, true, from);
    x := Scene(cfg, Crew(n, 2, lo), 0, iset{from, to}, true);
    assert seq(n, _ => Idle) == Crew(n, 2, lo);
    var sh := One(cfg, CLEARED, 0, cfg.metadata, 0, 0, from);
    CrewAsks(x, sh, n, n);
    x := x.(threads := Crew(n, n, lo));
    Sets(x, sh, hi);
    assert sh.(capacity := hi) == One(cfg, CLEARED, 0, cfg.metadata, 0, 0, to);
  }

  // If the table itself is charged more than the lower capacity, one of them cuts that.
  lemma MakesRoom(cfg: Config, n: nat, lo: nat, hi: nat) returns (x: Scene, k: nat)
    requires lo < hi < WORD && cfg.metadata < WORD && 3 <= n
    ensures x == Scene(cfg, x.threads, 0, iset{Setting(true, lo), Setting(true, hi)}, true) && |x.threads| == n
    ensures 2 <= k <= 3 && Waiting(x.threads[0 := Remove(RmUsage, KEY, 0, 0)], k, 0, lo)
    ensures Here(x, One(cfg, CLEARED, 0, Min(lo, cfg.metadata), 0, 0, Setting(true, hi)), Idle)
  {
    hide Here;
    x := Raises(cfg, n, lo, hi);
    k := 2;
    if lo < cfg.metadata {
      var sh := One(cfg, CLEARED, 0, cfg.metadata, 0, 0, Setting(true, hi));
      assert x.threads[0 := Idle] == x.threads;
      TakeOver(x, sh, Idle, x.threads, 2);
      assert x.threads[2] == Stale(lo);
      Cuts(x.(t := 2), sh, lo, Sole(0));
      var owes := AfterCas(Sole(0), false, cfg.metadata, lo);
      TakeOver(x.(t := 2), sh.(usage := lo), owes, x.threads[2 := owes], 0);
      x := x.(threads := x.threads[2 := owes]);
      k := 3;
    }
  }

  // Thread 0 fills the cache with an entry and erases it again.
  lemma FillsAll(x: Scene, k: nat, lo: nat, hi: nat, u: nat) returns (threads: seq<Pc>)
    requires x.cfg.occupancyLimit >= 1 && u < hi < WORD && x.t == 0 && x.threads != []
    requires Waiting(x.threads[0 := Remove(RmUsage, KEY, 0, 0)], k, 0, lo)
    requires Here(x, One(x.cfg, CLEARED, 0, u, 0, 0, Setting(true, hi)), Idle)
    ensures |threads| == |x.threads| && Waiting(threads, k, hi - u, lo)
    ensures Here(x.(threads := threads, t := 1), Emptied(x.cfg, hi - u, hi, hi), Idle)
  {
    hide Here;
    var s, e := Setting(true, hi), hi - u;
    EntersStrict(x, One(x.cfg, CLEARED, 0, u, 0, 0, s), e);
    Fills(x, e, hi, s);
    Erases(x, e, hi, s);
    var gives := Remove(RmUsage, KEY, 0, e);
    threads := x.threads[0 := gives];
    assert forall i :: 0 < i < |threads| ==> threads[i] == x.threads[0 := Remove(RmUsage, KEY, 0, 0)][i];
    TakeOver(x, Emptied(x.cfg, e, hi, hi), gives, threads, 1);
  }

  // A run that only ever raises the capacity, after which the assertion fails.
  lemma RaisingRun(cfg: Config, lo: nat, hi: nat) returns (st: State)
    requires cfg.occupancyLimit >= 1 && cfg.metadata < HALF_WORD && lo < hi < HALF_WORD
    ensures Reached(cfg, st, iset{Setting(true, lo), Setting(true, hi)}, true)
    ensures TotalCharge(cfg, st) < WORD && !Covered(st)
  {
    hide Here, Reached, TotalCharge;
    var x, k := MakesRoom(cfg, hi + 3, lo, hi);
    var e := hi - Min(lo, cfg.metadata);
    var threads := FillsAll(x, k, lo, hi, Min(lo, cfg.metadata));
    x := x.(threads := threads, t := 1);
    var done;
    threads, done := Cycles(x, k, e, lo, hi, hi);
    Arrives(x.(threads := threads), Emptied(cfg, e, 0, hi), Idle);
    assert threads[1 := Idle] == threads;
    st := State(Emptied(cfg, e, 0, hi), threads);
    LeftOver(cfg, st);
    assert Reclaims(st.threads[0]);
  }

  // -- the limit becomes strict -----------------------------------------------------------------

  // A run in which strict mode is switched on above the capacity.
  lemma SwitchRun(cfg: Config, cap: nat) returns (st: State)
    requires cfg.occupancyLimit >= 1 && cfg.metadata < HALF_WORD && cap < HALF_WORD
    ensures Reached(cfg, st, iset{Setting(false, cap), Setting(true, cap)}, true)
    ensures TotalCharge(cfg, st) < WORD && !Covered(st)
  {
    hide Here, Reached, TotalCharge;
    var lax, strict := Setting(false, cap), Setting(true, cap);
    var e := 1 + if cap < cfg.metadata then cfg.metadata else cap;
    var x := Scene(cfg, [Idle, Idle], 0, iset{lax, strict}, true);
    assert seq(2, _ => Idle) == [Idle, Idle];
    Begins(cfg, 2, 0, x.S, true, lax);
    EntersLax(x, One(cfg, CLEARED, 0, cfg.metadata, 0, 0, lax), e);
    Fills(x, e, cfg.metadata + e, lax);
    Erases(x, e, cfg.metadata + e, lax);
    var gives := Remove(RmUsage, KEY, 0, e);
    var sh := One(cfg, CLEARED, e, cfg.metadata + e, 0, 0, lax);
    TakeOver(x, sh, gives, [gives, Idle], 1);
    x := x.(threads := [gives, Idle], t := 1);
    TurnsStrict(x, sh);
    sh := One(cfg, CLEARED, e, cfg.metadata + e, 0, 0, strict);
    Asks(x, sh, 0);
    Cuts(x, sh, cap, Sole(0));
    var owes := AfterCas(Sole(0), false, cfg.metadata + e, cap);
    sh := sh.(usage := cap);
    Arrives(x, sh, owes);
    assert x.threads[1 := owes] == [gives, owes];
    st := State(sh, [gives, owes]);
    LeftOver(cfg, st);
    assert Reclaims(st.threads[0]);
  }

  // -- exactly when ------------------------------------------------------------------------------

  lemma Uncovered(cfg: Config, st: State, S: iset<Setting>)
    requires Reached(cfg, st, S, false) && TotalCharge(cfg, st) < WORD && !Covered(st)
    ensures !AlwaysCovered(cfg, S)
  {
    hide Leads, TotalCharge, Covered;
    var run, sched :| Leads(cfg, run, sched, st, S, false);
  }

  lemma SwitchUncovers(cfg: Config, S: iset<Setting>, a: Setting, b: Setting)
    requires cfg.occupancyLimit >= 1 && Sane(cfg, S) && a in S && b in S && a.strict && Adjacent(a, b)
    ensures !AlwaysCovered(cfg, S)
  {
    hide Reached, TotalCharge, Covered, AlwaysCovered;
    var st;
    if !b.strict {
      st := SwitchRun(cfg, a.capacity);
      ReachedMore(cfg, st, iset{b, a}, true, S);
    } else if a.capacity < b.capacity {
      st := RaisingRun(cfg, a.capacity, b.capacity);
      ReachedMore(cfg, st, iset{a, b}, true, S);
    } else {
      st := RaisingRun(cfg, b.capacity, a.capacity);
      ReachedMore(cfg, st, iset{b, a}, true, S);
    }
    Uncovered(cfg, st, S);
  }

  // Of all runs of any number of threads, with the settings that a caller allows: usage_
  // always covers what is given back exactly when no allowed call changes a strict setting
  // or makes one.
  lemma UsageAssertionIff(cfg: Config, S: iset<Setting>)
    requires cfg.occupancyLimit >= 1 && Sane(cfg, S)
    ensures AlwaysCovered(cfg, S) <==> !Switches(S)
  {
    hide Leads, TotalCharge, Covered;
    if Switches(S) {
      var a, b :| a in S && b in S && a.strict && Adjacent(a, b);
      SwitchUncovers(cfg, S, a, b);
    } else {
      forall run, sched, st | Leads(cfg, run, sched, st, S, false) && TotalCharge(cfg, st) < WORD ensures Covered(st) {
        NoSwitchCovered(cfg, run, sched, st, S);
      }
    }
  }

  // Lowering the capacity is not needed for that, but is one more way: the entry of charge
  // 50 was erased; then the cache is full, the capacity becomes 10, and the next charge
  // cuts usage_ from 100 to 10.
  lemma UnderflowExample() returns (cfg: Config, st: State)
    ensures Reached(cfg, st, iset{Setting(true, 100), Setting(true, 10)}, false)
    ensures |st.threads| == 2 && Reclaims(st.threads[0]) && st.threads[0].charge == 50 && st.sh.usage == 10
  {
    hide Here, Reached;
    cfg := Config(0, 10, 0, false, 0);
    var s := Setting(true, 100);
    var x := Scene(cfg, [Idle, Idle], 0, iset{s, Setting(true, 10)}, false);
    assert seq(2, _ => Idle) == [Idle, Idle];
    Begins(cfg, 2, 0, x.S, false, s);
    EntersStrict(x, One(cfg, CLEARED, 0, 0, 0, 0, s), 50);
    Fills(x, 50, 50, s);
    Erases(x, 50, 50, s);
    var gives, sh := Remove(RmUsage, KEY, 0, 50), One(cfg, CLEARED, 50, 50, 0, 0, s);
    TakeOver(x, sh, gives, [gives, Idle], 1);
    x := x.(threads := [gives, Idle], t := 1);
    Standalone(x, sh, 50);
    sh := sh.(usage := 100, loose := 50);
    Sets(x, sh, 10);
    sh := sh.(capacity := 10);
    Asks(x, sh, 5);
    Cuts(x, sh, 10, Sole(5));
    var owes := AfterCas(Sole(5), false, 100, 10);
    Arrives(x, sh.(usage := 10), owes);
    assert x.threads[1 := owes] == [gives, owes];
    st := State(sh.(usage := 10), [gives, owes]);
  }
}
