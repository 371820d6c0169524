// The strict capacity limit in every run: which capacities keep it.
module ClockExamples {
  import opened ClockTable
  import opened ClockTheorems
  import opened ClockCapacity
  import opened ClockRuns

  // usage_ stays within the capacity, in every run in strict mode at this capacity.
  ghost predicate AlwaysWithin(cfg: Config, cap: nat) {
    forall run, sched, st :: Leads(cfg, run, sched, st, iset{Setting(true, cap)}, false) ==> st.sh.usage <= cap
  }

  // From half the word range on, usage_ + total_charge can wrap around: with a full cache
  // a charge of 2^64 - cap makes usage_ zero; after one more charge of 1, giving back
  // the large one makes it cap + 1.
  lemma WrapRun(cfg: Config, cap: nat) returns (st: State)
    requires cfg.metadata <= cap < WORD - 1 && cap >= HALF_WORD
    ensures Reached(cfg, st, iset{Setting(true, cap)}, false) && st.sh.usage == cap + 1
  {
    hide Here, Reached, U;
    var s := Setting(true, cap);
    var x := Scene(cfg, seq(1, _ => Idle), 0, iset{s}, false);
    Begins(cfg, 1, 0, x.S, false, s);
    WrapSums(cfg.metadata, cap);
    var sh := One(cfg, CLEARED, 0, cfg.metadata, 0, 0, s);
    Standalone(x, sh, cap - cfg.metadata);
    sh := One(cfg, CLEARED, 0, cap, 0, cap - cfg.metadata, s);
    Standalone(x, sh, WORD - cap);
    sh := One(cfg, CLEARED, 0, 0, 0, WORD - cfg.metadata, s);
    Standalone(x, sh, 1);
    sh := One(cfg, CLEARED, 0, 1, 0, WORD - cfg.metadata + 1, s);
    Frees(x, sh, WORD - cap);
    sh := One(cfg, CLEARED, 0, cap + 1, 0, cap - cfg.metadata + 1, s);
    st := State(sh, x.threads[0 := Idle]);
    Arrives(x, sh, Idle);
  }

  lemma WrapSums(metadata: nat, cap: nat)
    requires metadata <= cap < WORD - 1
    ensures U(metadata + (cap - metadata)) == cap && U(cap + (WORD - cap)) == 0
    ensures U(0 + 1) == 1 && U(1 - (WORD - cap)) == cap + 1
  {
  }

  // The strict limit is kept exactly by capacities that cover the table itself and are
  // below half the word range, and by the largest one, which no word exceeds.
  lemma StrictLimitIff(cfg: Config, cap: nat)
    requires cfg.metadata < WORD && cap < WORD
    ensures AlwaysWithin(cfg, cap) <==> cfg.metadata <= cap && (cap < HALF_WORD || cap == WORD - 1)
  {
    hide StrictInv, WellFormed, Reached;
    if cfg.metadata <= cap && (cap < HALF_WORD || cap == WORD - 1) {
      forall run, sched, st | Leads(cfg, run, sched, st, iset{Setting(true, cap)}, false) ensures st.sh.usage <= cap {
        LimitKept(cfg, run, sched, st, cap);
      }
    } else {
      var st;
      if cfg.metadata > cap {
        Begins(cfg, 1, 0, iset{Setting(true, cap)}, false, Setting(true, cap));
        var x := Scene(cfg, seq(1, _ => Idle), 0, iset{Setting(true, cap)}, false);
        var sh := One(cfg, CLEARED, 0, cfg.metadata, 0, 0, Setting(true, cap));
        Arrives(x, sh, Idle);
        st := State(sh, x.threads[0 := Idle]);
      } else {
        st := WrapRun(cfg, cap);
      }
      Violated(cfg, cap, st);
    }
  }

  lemma LimitKept(cfg: Config, run: seq<State>, sched: seq<(nat, Choice)>, st: State, cap: nat)
    requires Leads(cfg, run, sched, st, iset{Setting(true, cap)}, false)
    requires cfg.metadata <= cap && (cap < HALF_WORD || cap == WORD - 1)
    ensures st.sh.usage <= cap
  {
    hide StrictInv;
    if cap < HALF_WORD {
      forall j | 0 <= j < |run| ensures StrictAt(run[j].sh, cap) { assert SettingOf(run[j].sh) == Setting(true, cap); }
      StrictCapacityHolds(cfg, run, sched, cap, |run| - 1);
    } else {
      RunUsageFits(cfg, run, sched, |run| - 1);
    }
  }

  lemma Violated(cfg: Config, cap: nat, st: State)
    requires Reached(cfg, st, iset{Setting(true, cap)}, false) && st.sh.usage > cap
    ensures !AlwaysWithin(cfg, cap)
  {
    hide Leads;
    var run, sched :| Leads(cfg, run, sched, st, iset{Setting(true, cap)}, false);
  }
}
