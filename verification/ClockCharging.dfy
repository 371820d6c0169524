// Charging an entry that nobody disturbs, with all the eviction that it takes: whether
// the entry is accepted, what it evicts, and what that leaves of usage_.
module ClockCharging {
  import opened ClockTable
  import opened ClockEvict

  // n steps of a thread that nobody disturbs.
  function Solo(cfg: Config, sh: Shared, pc: Pc, n: nat): (r: (Shared, Pc))
    requires Shape(cfg, sh) && InRange(cfg, pc)
    ensures Shape(cfg, r.0) && InRange(cfg, r.1)
    decreases n
  {
    if n == 0 then (sh, pc)
    else var (sh', pc') := Next(cfg, sh, pc, Go(false)); Solo(cfg, sh', pc', n - 1)
  }

  lemma {:induction false} SoloMore(cfg: Config, sh: Shared, pc: Pc, m: nat, n: nat)
    requires Shape(cfg, sh) && InRange(cfg, pc)
    ensures var (sh', pc') := Solo(cfg, sh, pc, m); Solo(cfg, sh, pc, m + n) == Solo(cfg, sh', pc', n)
    decreases m
  {
    hide Next;
    if m > 0 {
      var (sh', pc') := Next(cfg, sh, pc, Go(false));
      SoloMore(cfg, sh', pc', m - 1, n);
    }
  }

  // One step after m others.
  lemma SoloStep(cfg: Config, sh: Shared, pc: Pc, m: nat)
    requires Shape(cfg, sh) && InRange(cfg, pc)
    ensures var (sh', pc') := Solo(cfg, sh, pc, m); Solo(cfg, sh, pc, m + 1) == Next(cfg, sh', pc', Go(false))
  {
    hide Next;
    SoloMore(cfg, sh, pc, m, 1);
    var (sh', pc') := Solo(cfg, sh, pc, m);
    var (sh1, pc1) := Next(cfg, sh', pc', Go(false));
    assert Solo(cfg, sh1, pc1, 0) == (sh1, pc1);
  }

  // A run of Evict on its own is such a run.
  lemma {:induction false} AloneIsSolo(cfg: Config, sh: Shared, pc: Pc, n: nat)
    requires Shape(cfg, sh) && InRange(cfg, pc) && Alone(cfg, sh, pc, n).1.Evict?
    ensures Solo(cfg, sh, pc, n) == Alone(cfg, sh, pc, n)
    decreases n
  {
    hide NextEvict;
    if n > 0 && pc.Evict? {
      var (sh', pc') := NextEvict(cfg, sh, pc.ev, pc.sw);
      AloneIsSolo(cfg, sh', pc', n - 1);
    }
  }

  // -- what is asked for ------------------------------------------------------------------------

  // Without the strict limit: nothing is asked for if the entry fits or is larger than
  // everything charged so far; else at least its own charge; and above the capacity more
  // than that, so that usage_ goes down.
  lemma LaxRequest(ins: Ins, needOcc: bool, was: nat, cap: nat)
    requires was + ins.charge < WORD
    ensures LaxNeed(ins, needOcc, was, cap) == 0 <==> !needOcc && (was + ins.charge <= cap || was < ins.charge)
    ensures was + ins.charge <= cap || was < ins.charge ==> LaxNeed(ins, needOcc, was, cap) <= 1
    ensures was <= cap < was + ins.charge && ins.charge <= was ==> LaxNeed(ins, needOcc, was, cap) == ins.charge
    ensures cap < was && ins.charge <= was ==>
      ins.charge < LaxNeed(ins, needOcc, was, cap) <= ins.charge + 1 + Min(cap / 1024, ins.charge)
  {
  }

  // What a run of Evict for this request reports: nothing if nothing is asked for.
  ghost predicate Evicts(cfg: Config, sh: Shared, request: nat, r: Report) {
    && Shape(cfg, sh) && sh.slots != []
    && if request == 0 then r == Report(0, 0, 0) else exists b :: Ends(cfg, sh, request, r, b)
  }

  // It ends after b batches.
  ghost predicate Ends(cfg: Config, sh: Shared, request: nat, r: Report, b: nat)
    requires Shape(cfg, sh) && sh.slots != []
  {
    && EndsAt(CellsOf(sh), sh.clock, request, EffortCap(cfg, sh), b)
    && r == Passed(CellsOf(sh), sh.clock, STEP_SIZE * b).1
  }

  // The charges in the table are part of usage_, and nothing wraps around.
  predicate Sane(sh: Shared, ins: Ins) {
    Total(CellsOf(sh)) <= sh.usage && sh.usage + ins.charge < WORD
  }

  // From the start of Evict to the decision.
  lemma EvictThenSettle(cfg: Config, sh: Shared, sw: Sweep, r: Report) returns (n: nat, sh1: Shared, sw1: Sweep)
    requires Evicts(cfg, sh, sw.request, r) && sw.request > 0 && Total(CellsOf(sh)) < WORD
    requires sw.freedCharge == sw.freedCount == sw.pinned == 0
    ensures Shape(cfg, sh1) && Solo(cfg, sh, Pc.Evict(EvStart, sw), n) == (sh1, Pc.Evict(EvDone, sw1))
    ensures SameTask(sw, sw1) && Report(sw1.freedCharge, sw1.freedCount, sw1.pinned) == r
    ensures sh1 == sh.(slots := sh1.slots, clock := sh1.clock)
    ensures Total(CellsOf(sh1)) + r.freedCharge == Total(CellsOf(sh))
  {
    hide Alone, Solo, CellsOf, Passed, Total, Next, EndsAt;
    var b :| Ends(cfg, sh, sw.request, r, b);
    n, sh1, sw1 := EvictRunsAlone(cfg, sh, sw, b);
    AloneIsSolo(cfg, sh, Pc.Evict(EvStart, sw), n);
    PassedConserves(CellsOf(sh), sh.clock, STEP_SIZE * b);
  }

  // What charging leaves behind, besides the decision.
  predicate Leaves(cfg: Config, sh: Shared, ins: Ins, r: Report, sh': Shared, accepted: bool) {
    && Shape(cfg, sh') && sh'.strict == sh.strict && sh'.capacity == sh.capacity && sh'.loose == sh.loose
    && sh'.usage == sh.usage + (if accepted then ins.charge else 0) - r.freedCharge
    && sh'.occupancy == sh.occupancy - r.freedCount
    && Total(CellsOf(sh')) + r.freedCharge == Total(CellsOf(sh))
  }

  // -- without the strict limit -----------------------------------------------------------------------

  // The entry is accepted unless an eviction was due for occupancy and none was possible,
  // and usage_ grows by its charge less what was evicted.
  lemma LaxCharge(cfg: Config, sh: Shared, ins: Ins, needOcc: bool, r: Report)
    returns (n: nat, sh': Shared, pc': Pc)
    requires !sh.strict && Sane(sh, ins)
    requires Evicts(cfg, sh, LaxNeed(ins, needOcc, sh.usage, sh.capacity), r)
    ensures Solo(cfg, sh, Charge(ChMode(needOcc), ins), n) == (sh', pc')
    ensures var accepted := !(needOcc && r.freedCount == 0);
      && Leaves(cfg, sh, ins, r, sh', accepted)
      && pc' == if accepted then Accepted(ins)
                else Undo(if ins.alone then UnForce else UnOccupancy(ChargeFailed), ins)
  {
    hide Solo, CellsOf, Total, LaxNeed, NextEvict, Evicts;
    var start, request := Charge(ChMode(needOcc), ins), LaxNeed(ins, needOcc, sh.usage, sh.capacity);
    var sw := Sweep(ins, false, needOcc, 0, request, 0, 0, 0, 0, 0, 0, 0);
    FreedBounded(cfg, sh, request, r);
    LaxRequest(ins, needOcc, sh.usage, sh.capacity);
    LaxAsks(cfg, sh, ins, needOcc);
    if request == 0 {
      NothingFreed(cfg, sh, r);
      n, sh', pc' := Settles(cfg, sh, start, 3, sh, sw, r);
      ClockFrame(sh, sh');
    } else {
      var k, sh1, sw1 := EvictThenSettle(cfg, sh, sw, r);
      SoloMore(cfg, sh, start, 3, k);
      n, sh', pc' := LaxDone(cfg, sh, start, 3 + k, sh1, sw1, r);
      ClockFrame(sh1, sh');
    }
  }

  lemma LaxAsks(cfg: Config, sh: Shared, ins: Ins, needOcc: bool)
    requires Shape(cfg, sh) && !sh.strict
    ensures var request := LaxNeed(ins, needOcc, sh.usage, sh.capacity);
      Solo(cfg, sh, Charge(ChMode(needOcc), ins), 3) ==
        (sh, Pc.Evict(if request > 0 then EvStart else EvSettle,
                      Sweep(ins, false, needOcc, 0, request, 0, 0, 0, 0, 0, 0, 0)))
  {
    hide LaxNeed, Solo, NextEvict, NextInsert, NextUndo;
    var start := Charge(ChMode(needOcc), ins);
    assert Solo(cfg, sh, start, 0) == (sh, start) by { SoloNone(cfg, sh, start); }
    SoloStep(cfg, sh, start, 0);
    SoloStep(cfg, sh, start, 1);
    SoloStep(cfg, sh, start, 2);
  }

  lemma SoloNone(cfg: Config, sh: Shared, pc: Pc)
    requires Shape(cfg, sh) && InRange(cfg, pc)
    ensures Solo(cfg, sh, pc, 0) == (sh, pc)
  {
  }

  lemma NothingFreed(cfg: Config, sh: Shared, r: Report)
    requires Evicts(cfg, sh, 0, r)
    ensures r == Report(0, 0, 0)
  {
  }

  // What is freed was charged.
  lemma FreedBounded(cfg: Config, sh: Shared, request: nat, r: Report)
    requires Evicts(cfg, sh, request, r)
    ensures Shape(cfg, sh) && r.freedCharge <= Total(CellsOf(sh)) && (r.freedCount == 0 ==> r.freedCharge == 0)
  {
    hide EndsAt, CellsOf, Passed, Total;
    TotalNonNegative(CellsOf(sh));
    if request > 0 {
      var b :| Ends(cfg, sh, request, r, b);
      PassedConserves(CellsOf(sh), sh.clock, STEP_SIZE * b);
      TotalNonNegative(Passed(CellsOf(sh), sh.clock, STEP_SIZE * b).0);
      NoneFreed(CellsOf(sh), sh.clock, STEP_SIZE * b);
    }
  }

  lemma {:induction false} NoneFreed(cells: seq<Cell>, p: nat, t: nat)
    requires cells != []
    ensures Passed(cells, p, t).1.freedCount == 0 ==> Passed(cells, p, t).1.freedCharge == 0
  {
    if t > 0 { NoneFreed(cells, p, t - 1); }
  }

  // After m steps the thread is about to settle without the strict limit.
  lemma Settles(cfg: Config, sh: Shared, start: Pc, m: nat, sh1: Shared, sw1: Sweep, r: Report)
    returns (n: nat, sh': Shared, pc': Pc)
    requires Shape(cfg, sh) && InRange(cfg, start) && Solo(cfg, sh, start, m) == (sh1, Pc.Evict(EvSettle, sw1))
    requires !sw1.strict && sw1.freedCharge == r.freedCharge <= sh1.usage && sh1.usage + sw1.ins.charge < WORD
    ensures Solo(cfg, sh, start, n) == (sh', pc') && pc' == Accepted(sw1.ins)
    ensures sh' == sh1.(usage := sh1.usage + sw1.ins.charge - r.freedCharge)
  {
    hide Solo;
    SoloStep(cfg, sh, start, m);
    n, sh', pc' := m + 1, sh1.(usage := U(sh1.usage + sw1.ins.charge - sw1.freedCharge)), Accepted(sw1.ins);
  }

  lemma LaxDone(cfg: Config, sh: Shared, start: Pc, m: nat, sh1: Shared, sw1: Sweep, r: Report)
    returns (n: nat, sh': Shared, pc': Pc)
    requires Shape(cfg, sh) && InRange(cfg, start) && Solo(cfg, sh, start, m) == (sh1, Pc.Evict(EvDone, sw1))
    requires !sw1.strict && Report(sw1.freedCharge, sw1.freedCount, sw1.pinned) == r
    requires r.freedCharge <= sh1.usage && sh1.usage + sw1.ins.charge < WORD
    ensures Solo(cfg, sh, start, n) == (sh', pc')
    ensures if sw1.needOcc && r.freedCount == 0
      then sh' == sh1 && pc' == Undo(if sw1.ins.alone then UnForce else UnOccupancy(ChargeFailed), sw1.ins)
      else pc' == Accepted(sw1.ins) && sh' == sh1.(occupancy := sh1.occupancy - r.freedCount,
                                                  usage := sh1.usage + sw1.ins.charge - r.freedCharge)
  {
    hide Solo;
    SoloStep(cfg, sh, start, m);
    if sw1.needOcc && r.freedCount == 0 {
      n, sh', pc' := m + 1, sh1, Undo(if sw1.ins.alone then UnForce else UnOccupancy(ChargeFailed), sw1.ins);
    } else {
      n, sh', pc' := Settles(cfg, sh, start, m + 1, sh1.(occupancy := sh1.occupancy - r.freedCount), sw1, r);
    }
  }

  // If it evicted what it asked for, usage_ stays within the capacity when it was, and goes
  // down when it was above; an entry that fits evicts nothing, and one that is larger than
  // everything charged so far is let in on top.
  lemma LaxLeaves(cfg: Config, sh: Shared, ins: Ins, r: Report)
    requires !sh.strict && Sane(sh, ins) && Evicts(cfg, sh, LaxNeed(ins, false, sh.usage, sh.capacity), r)
    requires r.freedCharge >= LaxNeed(ins, false, sh.usage, sh.capacity)
    ensures var after := sh.usage + ins.charge - r.freedCharge;
      && (sh.usage + ins.charge <= sh.capacity ==> after == sh.usage + ins.charge)
      && (sh.usage <= sh.capacity && ins.charge <= sh.usage ==> after <= sh.capacity)
      && (sh.capacity < sh.usage && ins.charge <= sh.usage ==> after < sh.usage)
      && (sh.usage < ins.charge ==> after == sh.usage + ins.charge)
  {
    hide LaxNeed, Ends, CellsOf, Total;
    LaxRequest(ins, false, sh.usage, sh.capacity);
  }

  // -- with the strict limit ---------------------------------------------------------------------------

  // What has to be evicted: what does not fit.
  function Excess(usage: nat, charge: nat, cap: nat): nat {
    if usage + charge <= cap then 0 else usage + charge - cap
  }

  // An entry above the capacity is refused at once. Any other is accepted exactly if
  // after evicting what does not fit, and something if occupancy requires it, usage_ is
  // within the capacity.
  lemma StrictCharge(cfg: Config, sh: Shared, ins: Ins, needOcc: bool, r: Report)
    returns (n: nat, sh': Shared, pc': Pc)
    requires sh.strict && Sane(sh, ins) && ins.charge <= sh.capacity < WORD
    requires var need := Excess(sh.usage, ins.charge, sh.capacity);
      Evicts(cfg, sh, if needOcc && need == 0 then 1 else need, r)
    ensures Solo(cfg, sh, Charge(ChMode(needOcc), ins), n) == (sh', pc')
    ensures var accepted := sh.usage + ins.charge - r.freedCharge <= sh.capacity && !(needOcc && r.freedCount == 0);
      Leaves(cfg, sh, ins, r, sh', accepted) && pc' == if accepted then Accepted(ins) else NotAccepted(ins)
  {
    hide Solo, CellsOf, Total, NextEvict, Evicts, AfterCas;
    var start, need := Charge(ChMode(needOcc), ins), Excess(sh.usage, ins.charge, sh.capacity);
    var request, now := if needOcc && need == 0 then 1 else need, sh.usage + ins.charge - need;
    FreedBounded(cfg, sh, request, r);
    StrictAsks(cfg, sh, ins, needOcc);
    ClockFrame(sh, sh.(usage := now));
    if request == 0 {
      NothingFreed(cfg, sh, r);
      n, sh', pc' := 4, sh.(usage := now), Accepted(ins);
    } else {
      var sw := Sweep(ins, true, needOcc, need, request, now - sh.usage, 0, 0, 0, 0, 0, 0);
      EvictsFrame(cfg, sh, sh.(usage := now), request, r);
      var k, sh1, sw1 := EvictThenSettle(cfg, sh.(usage := now), sw, r);
      SoloMore(cfg, sh, start, 4, k);
      n, sh', pc' := StrictDone(cfg, sh, start, 4 + k, sh1, sw1, r);
      ClockFrame(sh1, sh');
    }
  }

  lemma EvictsFrame(cfg: Config, sh: Shared, sh': Shared, request: nat, r: Report)
    requires Evicts(cfg, sh, request, r) && sh' == sh.(usage := sh'.usage)
    ensures Evicts(cfg, sh', request, r)
  {
    hide EndsAt, Passed, CellsOf;
    ClockFrame(sh, sh');
    if request > 0 {
      var b :| Ends(cfg, sh, request, r, b);
      assert Ends(cfg, sh', request, r, b);
    }
  }

  lemma TakesWhatFits(usage: nat, charge: nat, cap: nat)
    requires usage + charge < WORD && charge <= cap < WORD
    ensures var need := Excess(usage, charge, cap);
      NewUsage(usage, charge, cap) == usage + charge - need && U(usage + charge - NewUsage(usage, charge, cap)) == need
  {
  }

  lemma StrictAsks(cfg: Config, sh: Shared, ins: Ins, needOcc: bool)
    requires Shape(cfg, sh) && sh.strict && ins.charge <= sh.capacity < WORD && sh.usage + ins.charge < WORD
    ensures var need := Excess(sh.usage, ins.charge, sh.capacity);
      var now, request := sh.usage + ins.charge - need, if needOcc && need == 0 then 1 else need;
      Solo(cfg, sh, Charge(ChMode(needOcc), ins), 4) ==
        (sh.(usage := now),
         if request == 0 then Accepted(ins)
         else Pc.Evict(EvStart, Sweep(ins, true, needOcc, need, request, now - sh.usage, 0, 0, 0, 0, 0, 0)))
  {
    hide Solo, U, NewUsage, NextEvict, NextInsert, NextUndo;
    TakesWhatFits(sh.usage, ins.charge, sh.capacity);
    var start := Charge(ChMode(needOcc), ins);
    SoloNone(cfg, sh, start);
    SoloStep(cfg, sh, start, 0);
    SoloStep(cfg, sh, start, 1);
    SoloStep(cfg, sh, start, 2);
    SoloStep(cfg, sh, start, 3);
  }

  lemma StrictDone(cfg: Config, sh: Shared, start: Pc, m: nat, sh1: Shared, sw1: Sweep, r: Report)
    returns (n: nat, sh': Shared, pc': Pc)
    requires Shape(cfg, sh) && InRange(cfg, start) && Solo(cfg, sh, start, m) == (sh1, Pc.Evict(EvDone, sw1))
    requires sw1.strict && Report(sw1.freedCharge, sw1.freedCount, sw1.pinned) == r
    requires sw1.taken + sw1.need == sw1.ins.charge && 0 <= sh1.usage - sw1.taken && sh1.usage + sw1.need < WORD
    requires r.freedCharge <= sh1.usage - sw1.taken < WORD && (r.freedCount == 0 ==> r.freedCharge == 0)
    ensures Solo(cfg, sh, start, n) == (sh', pc')
    ensures var accepted := r.freedCharge >= sw1.need && !(sw1.needOcc && r.freedCount == 0);
      && pc' == (if accepted then Accepted(sw1.ins) else NotAccepted(sw1.ins))
      && sh' == sh1.(occupancy := sh1.occupancy - r.freedCount,
                     usage := sh1.usage - sw1.taken + (if accepted then sw1.ins.charge else 0) - r.freedCharge)
  {
    hide Solo;
    SoloStep(cfg, sh, start, m);
    SoloStep(cfg, sh, start, m + 1);
    n := m + 2;
    var (s, p) := Solo(cfg, sh, start, n);
    sh', pc' := s, p;
  }

  lemma TooLarge(cfg: Config, sh: Shared, ins: Ins, needOcc: bool)
    requires Shape(cfg, sh) && sh.strict && sh.capacity < ins.charge
    ensures Solo(cfg, sh, Charge(ChMode(needOcc), ins), 2) == (sh, NotAccepted(ins))
  {
    hide Solo;
    var start := Charge(ChMode(needOcc), ins);
    SoloNone(cfg, sh, start);
    SoloStep(cfg, sh, start, 0);
    SoloStep(cfg, sh, start, 1);
  }
}
