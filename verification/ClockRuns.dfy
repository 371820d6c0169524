// Building runs of the clock table, step by step, to show that a state can be reached.
module ClockRuns {
  import opened Probing
  import opened ClockTable
  import opened ClockLedger
  import opened ClockInvariant
  import opened ClockTheorems

  // What SetStrictCapacityLimit and SetCapacity set.
  datatype Setting = Setting(strict: bool, capacity: nat)

  function SettingOf(sh: Shared): Setting { Setting(sh.strict, sh.capacity) }

  // A run from a fresh table to st whose settings are in S and, if so asked, whose
  // capacity is never lowered.
  ghost predicate Leads(
      cfg: Config, run: seq<State>, sched: seq<(nat, Choice)>, st: State, S: iset<Setting>, rising: bool) {
    && IsRun(cfg, run, sched) && Init(cfg, run[0]) && run[|run| - 1] == st
    && (forall k :: 0 <= k < |run| ==> SettingOf(run[k].sh) in S)
    && (rising ==> forall k :: 0 < k < |run| ==> run[k - 1].sh.capacity <= run[k].sh.capacity)
  }

  ghost predicate Reached(cfg: Config, st: State, S: iset<Setting>, rising: bool) {
    exists run, sched :: Leads(cfg, run, sched, st, S, rising)
  }

  lemma ReachedStart(cfg: Config, st: State, S: iset<Setting>, rising: bool)
    requires Init(cfg, st) && WellFormed(cfg, st) && SettingOf(st.sh) in S
    ensures Reached(cfg, st, S, rising)
  {
    assert Leads(cfg, [st], [], st, S, rising);
  }

  // One more step.
  lemma ReachedStep(cfg: Config, st: State, t: nat, ch: Choice, S: iset<Setting>, rising: bool)
    requires Reached(cfg, st, S, rising) && WellFormed(cfg, st) && t < |st.threads|
    requires var sh' := Step(cfg, st, t, ch).sh;
      Small(sh') && SettingOf(sh') in S && (rising ==> st.sh.capacity <= sh'.capacity)
    ensures Reached(cfg, Step(cfg, st, t, ch), S, rising)
  {
    hide Step, Small, Init, Pow2;
    var run, sched :| Leads(cfg, run, sched, st, S, rising);
    var st' := Step(cfg, st, t, ch);
    var run', sched' := run + [st'], sched + [(t, ch)];
    forall k | 0 <= k < |sched'|
      ensures sched'[k].0 < |run'[k].threads| && run'[k + 1] == Step(cfg, run'[k], sched'[k].0, sched'[k].1)
    {
      if k < |sched| { assert run'[k] == run[k] && run'[k + 1] == run[k + 1] && sched'[k] == sched[k]; }
      else { assert run'[k] == st && run'[k + 1] == st'; }
    }
    assert Leads(cfg, run', sched', st', S, rising);
  }

  // -- states of a table with at most one entry ---------------------------------------------------------

  const KEY := Key(0, 0)

  // Slot 0 has meta word m and holds an entry of this charge; the other slots are empty.
  function One(cfg: Config, m: Meta, charge: nat, usage: nat, occupancy: int, loose: nat, s: Setting): Shared {
    var empty := seq(cfg.Size(), _ => Slot(CLEARED, KEY, 0, 0));
    Shared(empty[0 := Slot(m, KEY, charge, 0)], seq(cfg.Size(), _ => 0), usage, occupancy, loose, 0,
           s.capacity, s.strict)
  }

  // The key is probed at slot 0 first.
  lemma AtHome(cfg: Config)
    ensures At(cfg, KEY, 0) == 0
  {
    SmallMod(0, cfg.Size());
  }

  // Words that the runs below write.
  predicate Plain(m: Meta) {
    m.acq <= 2 && m.rel <= 2
  }

  lemma OneSmall(cfg: Config, m: Meta, charge: nat, usage: nat, occupancy: int, loose: nat, s: Setting)
    requires Plain(m)
    ensures var sh := One(cfg, m, charge, usage, occupancy, loose, s); Small(sh) && Shape(cfg, sh)
  {
    hide Pow2;
  }

  // A thread t among others, in runs with settings in S.
  datatype Scene = Scene(cfg: Config, threads: seq<Pc>, t: nat, S: iset<Setting>, rising: bool)

  // Some run leads to this shared state with the thread at pc.
  ghost predicate Here(x: Scene, sh: Shared, pc: Pc) {
    && x.t < |x.threads| && Shape(x.cfg, sh) && Small(sh) && SettingOf(sh) in x.S
    && var st := State(sh, x.threads[x.t := pc]); WellFormed(x.cfg, st) && Reached(x.cfg, st, x.S, x.rising)
  }

  // The thread goes from pc to pc'.
  lemma Go(x: Scene, sh: Shared, pc: Pc, ch: Choice, sh': Shared, pc': Pc)
    requires Here(x, sh, pc) && InRange(x.cfg, pc) && Next(x.cfg, sh, pc, ch) == (sh', pc')
    requires Small(sh') && SettingOf(sh') in x.S && (x.rising ==> sh.capacity <= sh'.capacity)
    ensures Here(x, sh', pc')
  {
    hide Next, Small, Reached, Pow2;
    assert x.threads[x.t := pc][x.t := pc'] == x.threads[x.t := pc'];
    ReachedStep(x.cfg, State(sh, x.threads[x.t := pc]), x.t, ch, x.S, x.rising);
  }

  // A step that leaves the slots alone.
  lemma GoBy(x: Scene, sh: Shared, pc: Pc, sh': Shared, pc': Pc)
    requires Here(x, sh, pc) && InRange(x.cfg, pc) && Next(x.cfg, sh, pc, Choice.Go(false)) == (sh', pc')
    requires sh'.slots == sh.slots && SettingOf(sh') == SettingOf(sh)
    ensures Here(x, sh', pc')
  {
    hide Next, Reached, Pow2;
    Go(x, sh, pc, Choice.Go(false), sh', pc');
  }

  // Another thread takes over.
  lemma TakeOver(x: Scene, sh: Shared, pc: Pc, threads: seq<Pc>, u: nat)
    requires Here(x, sh, pc) && threads == x.threads[x.t := pc] && u < |threads|
    ensures Here(x.(threads := threads, t := u), sh, threads[u])
  {
    hide Reached, WellFormed, Small, Pow2;
    assert threads[u := threads[u]] == threads;
  }

  // A fresh table and n idle threads.
  lemma Begins(cfg: Config, n: nat, t: nat, S: iset<Setting>, rising: bool, s: Setting)
    requires t < n && s in S && cfg.metadata < WORD
    ensures Here(Scene(cfg, seq(n, _ => Idle), t, S, rising), One(cfg, CLEARED, 0, cfg.metadata, 0, 0, s), Idle)
  {
    hide Reached, Pow2;
    var threads, sh := seq(n, _ => Idle), One(cfg, CLEARED, 0, cfg.metadata, 0, 0, s);
    OneSmall(cfg, CLEARED, 0, cfg.metadata, 0, 0, s);
    assert threads[t := Idle] == threads;
    ReachedStart(cfg, State(sh, threads), S, rising);
  }

  lemma Arrives(x: Scene, sh: Shared, pc: Pc)
    requires Here(x, sh, pc)
    ensures x.t < |x.threads| && Reached(x.cfg, State(sh, x.threads[x.t := pc]), x.S, x.rising)
  {
  }

  // More settings allow more runs.
  lemma ReachedMore(cfg: Config, st: State, S: iset<Setting>, rising: bool, S': iset<Setting>)
    requires Reached(cfg, st, S, rising) && S <= S'
    ensures Reached(cfg, st, S', false)
  {
    hide IsRun, Init;
    var run, sched :| Leads(cfg, run, sched, st, S, rising);
    assert Leads(cfg, run, sched, st, S', false);
  }

  // -- operations of one thread ---------------------------------------------------------------------------

  function Sole(c: nat): Ins { Ins(KEY, c, 1, true, true) }
  function Entry(c: nat): Ins { Ins(KEY, c, 1, false, false) }

  // CreateStandalone has read the capacity, in strict mode.
  lemma Asks(x: Scene, sh: Shared, c: nat)
    requires Here(x, sh, Idle) && sh.strict && c <= sh.capacity && c < WORD
    ensures Here(x, sh, Charge(ChUsage(false, sh.capacity), Sole(c)))
  {
    hide Reached, WellFormed, Small, Pow2, U, Here;
    Known(x, sh, Idle);
    Go(x, sh, Idle, StartStandalone(c), sh, Charge(ChMode(false), Sole(c)));
    GoBy(x, sh, Charge(ChMode(false), Sole(c)), sh, Charge(ChCapacity(false), Sole(c)));
    GoBy(x, sh, Charge(ChCapacity(false), Sole(c)), sh, Charge(ChUsage(false, sh.capacity), Sole(c)));
  }

  lemma Known(x: Scene, sh: Shared, pc: Pc)
    requires Here(x, sh, pc)
    ensures Small(sh) && Shape(x.cfg, sh) && SettingOf(sh) in x.S && x.t < |x.threads|
  {
  }

  // It charges what fits.
  lemma Charges(x: Scene, sh: Shared, cap: nat, ins: Ins)
    requires Here(x, sh, Charge(ChUsage(false, cap), ins)) && U(sh.usage + ins.charge) <= cap
    ensures Here(x, sh.(usage := U(sh.usage + ins.charge)), Accepted(ins))
  {
    hide Reached, WellFormed, Small, Pow2, U, Here;
    Known(x, sh, Charge(ChUsage(false, cap), ins));
    var at, now := Charge(ChCas(false, cap, sh.usage), ins), U(sh.usage + ins.charge);
    GoBy(x, sh, Charge(ChUsage(false, cap), ins), sh, at);
    NoneNeeded(sh.usage, ins.charge, cap);
    assert AfterCas(ins, false, sh.usage, now) == Accepted(ins);
    GoBy(x, sh, at, sh.(usage := now), Accepted(ins));
  }

  lemma NoneNeeded(was: nat, c: nat, room: nat)
    requires U(was + c) <= room
    ensures NewUsage(was, c, room) == U(was + c) && U(was + c - U(was + c)) == 0
  {
  }

  // Or it cuts usage_ down to the capacity that it has read.
  lemma Cuts(x: Scene, sh: Shared, cap: nat, ins: Ins)
    requires Here(x, sh, Charge(ChUsage(false, cap), ins)) && cap < sh.usage && sh.usage + ins.charge < WORD
    ensures Here(x, sh.(usage := cap), AfterCas(ins, false, sh.usage, cap))
  {
    hide Reached, WellFormed, Small, Pow2, AfterCas, Here;
    Known(x, sh, Charge(ChUsage(false, cap), ins));
    var at := Charge(ChCas(false, cap, sh.usage), ins);
    GoBy(x, sh, Charge(ChUsage(false, cap), ins), sh, at);
    GoBy(x, sh, at, sh.(usage := cap), AfterCas(ins, false, sh.usage, cap));
  }

  // A standalone entry for which there is room.
  lemma Standalone(x: Scene, sh: Shared, c: nat)
    requires Here(x, sh, Idle) && sh.strict && c <= sh.capacity < WORD && U(sh.usage + c) <= sh.capacity
    ensures Here(x, sh.(usage := U(sh.usage + c), loose := sh.loose + c), Idle)
  {
    hide Reached, WellFormed, Small, Pow2, U, Here;
    Asks(x, sh, c);
    Charges(x, sh, sh.capacity, Sole(c));
    var charged := sh.(usage := U(sh.usage + c));
    Known(x, charged, Undo(UnStandalone, Sole(c)));
    var end := charged.(loose := sh.loose + c);
    GoBy(x, charged, Undo(UnStandalone, Sole(c)), end, Done(None));
    GoBy(x, end, Done(None), end, Idle);
  }

  // A standalone entry is released.
  lemma Frees(x: Scene, sh: Shared, c: nat)
    requires Here(x, sh, Idle) && c <= sh.loose
    ensures Here(x, sh.(usage := U(sh.usage - c), loose := sh.loose - c), Idle)
  {
    hide Reached, WellFormed, Pow2, U;
    var end := sh.(loose := sh.loose - c, usage := U(sh.usage - c));
    Go(x, sh, Idle, DropStandalone(c), end, Done(None));
    GoBy(x, end, Done(None), end, Idle);
  }

  lemma Sets(x: Scene, sh: Shared, cap: nat)
    requires Here(x, sh, Idle) && cap < WORD && Setting(sh.strict, cap) in x.S && (x.rising ==> sh.capacity <= cap)
    ensures Here(x, sh.(capacity := cap), Idle)
  {
    hide Reached, WellFormed, Pow2;
    Go(x, sh, Idle, SetCapacity(cap), sh.(capacity := cap), Idle);
  }

  lemma TurnsStrict(x: Scene, sh: Shared)
    requires Here(x, sh, Idle) && Setting(true, sh.capacity) in x.S
    ensures Here(x, sh.(strict := true), Idle)
  {
    hide Reached, WellFormed, Pow2;
    Go(x, sh, Idle, SetStrict(true), sh.(strict := true), Idle);
  }

  // Insert has charged an entry of the table, in strict mode with room for it.
  lemma EntersStrict(x: Scene, sh: Shared, e: nat)
    requires Here(x, sh, Idle) && sh.strict && sh.occupancy == 0 < x.cfg.occupancyLimit
    requires sh.usage + e <= sh.capacity < WORD
    ensures Here(x, sh.(usage := sh.usage + e, occupancy := 1), Insert(InClaim, Entry(e), 0))
  {
    hide Reached, WellFormed, Small, Pow2, Here;
    Known(x, sh, Idle);
    var seat := sh.(occupancy := 1);
    Go(x, sh, Idle, StartInsert(Entry(e)), sh, Charge(ChOccupy, Entry(e)));
    GoBy(x, sh, Charge(ChOccupy, Entry(e)), seat, Charge(ChMode(false), Entry(e)));
    Known(x, seat, Charge(ChMode(false), Entry(e)));
    GoBy(x, seat, Charge(ChMode(false), Entry(e)), seat, Charge(ChCapacity(false), Entry(e)));
    GoBy(x, seat, Charge(ChCapacity(false), Entry(e)), seat, Charge(ChUsage(false, sh.capacity), Entry(e)));
    Charges(x, seat, sh.capacity, Entry(e));
  }

  // The same in non-strict mode, for an entry larger than everything so far, for which
  // nothing is evicted.
  lemma EntersLax(x: Scene, sh: Shared, e: nat)
    requires Here(x, sh, Idle) && !sh.strict && sh.occupancy == 0 < x.cfg.occupancyLimit
    requires sh.usage < e && sh.usage + e < WORD
    ensures Here(x, sh.(usage := sh.usage + e, occupancy := 1), Insert(InClaim, Entry(e), 0))
  {
    hide Reached, WellFormed, Small, Pow2, Here;
    Known(x, sh, Idle);
    var seat, ins := sh.(occupancy := 1), Entry(e);
    Go(x, sh, Idle, StartInsert(ins), sh, Charge(ChOccupy, ins));
    GoBy(x, sh, Charge(ChOccupy, ins), seat, Charge(ChMode(false), ins));
    Known(x, seat, Charge(ChMode(false), ins));
    GoBy(x, seat, Charge(ChMode(false), ins), seat, Charge(ChLaxUsage(false), ins));
    GoBy(x, seat, Charge(ChLaxUsage(false), ins), seat, Charge(ChLaxCapacity(false, sh.usage), ins));
    var settle := Evict(EvSettle, Sweep(ins, false, false, 0, 0, 0, 0, 0, 0, 0, 0, 0));
    GoBy(x, seat, Charge(ChLaxCapacity(false, sh.usage), ins), seat, settle);
    GoBy(x, seat, settle, seat.(usage := sh.usage + e), Insert(InClaim, ins, 0));
  }

  const STORED := Meta(1, 1, false, Visible)

  // Slot 0 is written.
  lemma Writes(x: Scene, m: Meta, e: nat, m': Meta, e': nat, u: nat, s: Setting, pc: Pc, pc': Pc)
    requires Plain(m) && Plain(m') && At(x.cfg, KEY, 0) == 0 && InRange(x.cfg, pc)
    requires var sh, sh' := One(x.cfg, m, e, u, 1, 0, s), One(x.cfg, m', e', u, 1, 0, s);
      Here(x, sh, pc) && Next(x.cfg, sh, pc, Choice.Go(false)) ==
        (sh.(slots := sh.slots[0 := Slot(m', KEY, e', 0)]), pc')
    ensures Here(x, One(x.cfg, m', e', u, 1, 0, s), pc')
  {
    hide Reached, WellFormed, Next, Pow2, Here;
    var sh, sh' := One(x.cfg, m, e, u, 1, 0, s), One(x.cfg, m', e', u, 1, 0, s);
    Known(x, sh, pc);
    OneSmall(x.cfg, m', e', u, 1, 0, s);
    assert sh.slots[0 := Slot(m', KEY, e', 0)] == sh'.slots;
    Go(x, sh, pc, Choice.Go(false), sh', pc');
  }

  // The entry gets its slot.
  lemma Fills(x: Scene, e: nat, u: nat, s: Setting)
    requires Here(x, One(x.cfg, CLEARED, 0, u, 1, 0, s), Insert(InClaim, Entry(e), 0))
    ensures Here(x, One(x.cfg, STORED, e, u, 1, 0, s), Idle)
  {
    hide Reached, WellFormed, Small, Pow2, At, Here;
    AtHome(x.cfg);
    Writes(x, CLEARED, 0, TAKEN, 0, u, s, Insert(InClaim, Entry(e), 0), Insert(InFill, Entry(e), 0));
    Writes(x, TAKEN, 0, TAKEN, e, u, s, Insert(InFill, Entry(e), 0), Insert(InPublish, Entry(e), 0));
    Writes(x, TAKEN, e, STORED, e, u, s, Insert(InPublish, Entry(e), 0), Done(None));
    var sh := One(x.cfg, STORED, e, u, 1, 0, s);
    Known(x, sh, Done(None));
    GoBy(x, sh, Done(None), sh, Idle);
  }

  // It is erased, and its charge is about to be given back.
  lemma Erases(x: Scene, e: nat, u: nat, s: Setting)
    requires Here(x, One(x.cfg, STORED, e, u, 1, 0, s), Idle)
    ensures Here(x, One(x.cfg, CLEARED, e, u, 0, 0, s), Remove(RmUsage, KEY, 0, e))
  {
    hide Reached, WellFormed, Small, Pow2, At, Here;
    AtHome(x.cfg);
    var shared, hidden := Meta(2, 1, false, Visible), Meta(2, 1, false, Invisible);
    var sh := One(x.cfg, STORED, e, u, 1, 0, s);
    Known(x, sh, Idle);
    Go(x, sh, Idle, StartErase(KEY), sh, Erase(ErAcquire, KEY, 0));
    Writes(x, STORED, e, shared, e, u, s, Erase(ErAcquire, KEY, 0), Erase(ErCompare, KEY, 0));
    sh := One(x.cfg, shared, e, u, 1, 0, s);
    Known(x, sh, Erase(ErCompare, KEY, 0));
    GoBy(x, sh, Erase(ErCompare, KEY, 0), sh, Erase(ErHide, KEY, 0));
    Writes(x, shared, e, hidden, e, u, s, Erase(ErHide, KEY, 0), Erase(ErTake(hidden), KEY, 0));
    Writes(x, hidden, e, TAKEN, e, u, s, Erase(ErTake(hidden), KEY, 0), Remove(RmFree, KEY, 0, e));
    Writes(x, TAKEN, e, CLEARED, e, u, s, Remove(RmFree, KEY, 0, e), Remove(RmOccupancy, KEY, 0, e));
    sh := One(x.cfg, CLEARED, e, u, 1, 0, s);
    Known(x, sh, Remove(RmOccupancy, KEY, 0, e));
    GoBy(x, sh, Remove(RmOccupancy, KEY, 0, e), sh.(occupancy := 0), Remove(RmUsage, KEY, 0, e));
  }
}
