// A run of FixedHyperClockTable::Evict that nobody disturbs: how long it takes, how
// often it updates each slot, what it evicts, and that it reports exactly what it
// freed.
module ClockEvict {
  import opened Probing
  import opened Sums
  import opened ClockTable

  // What the clock algorithm sees of a slot.
  datatype Cell = Cell(meta: Meta, charge: nat)

  predicate InUse(c: Cell) {
    Shareable(c.meta) && c.meta.acq != c.meta.rel
  }

  // ClockUpdate takes the entry: unreferenced, and invisible or expired.
  predicate Evictable(c: Cell) {
    Shareable(c.meta) && c.meta.acq == c.meta.rel && (c.meta.state.Invisible? || c.meta.acq == 0)
  }

  // One ClockUpdate, followed by the release of the slot if it was taken.
  function Update(c: Cell): Cell {
    if Evictable(c) then c.(meta := CLEARED)
    else if Shareable(c.meta) && c.meta.acq == c.meta.rel then
      var count := Min(c.meta.acq - 1, MAX_COUNTDOWN - 1);
      c.(meta := Meta(count, count, c.meta.hit, Visible))
    else c
  }

  function Updates(c: Cell, k: nat): Cell {
    if k == 0 then c else Update(Updates(c, k - 1))
  }

  // The charge that a slot contributes to the table.
  function Held(c: Cell): nat {
    if c.meta.state.Empty? then 0 else c.charge
  }

  // Three updates evict an unreferenced entry unless it is visible with a countdown
  // above 2; a referenced entry or one under construction is left alone.
  lemma ThreeUpdates(c: Cell)
    ensures Shareable(c.meta) && c.meta.acq == c.meta.rel && (c.meta.state.Invisible? || c.meta.acq <= 2) ==>
      Updates(c, 3).meta == CLEARED
    ensures Shareable(c.meta) && c.meta.acq == c.meta.rel && c.meta.state.Visible? && c.meta.acq > 2 ==>
      Updates(c, 3).meta == Meta(0, 0, c.meta.hit, Visible)
    ensures !Shareable(c.meta) || c.meta.acq != c.meta.rel ==> Updates(c, 3) == c
  {
    assert Updates(c, 3) == Update(Update(Update(c))) by {
      assert Updates(c, 1) == Update(c);
      assert Updates(c, 2) == Update(Update(c));
    }
  }

  lemma {:induction false} UpdatesStay(c: Cell, k: nat)
    requires c.meta == CLEARED
    ensures Updates(c, k) == c
  {
    if k > 0 { UpdatesStay(c, k - 1); }
  }

  lemma {:induction false} UpdatesMore(c: Cell, j: nat, k: nat)
    ensures Updates(c, j + k) == Updates(Updates(c, j), k)
  {
    if k > 0 { UpdatesMore(c, j, k - 1); }
  }

  // -- which slots the pointer passes -------------------------------------------------------------

  // How often the positions p, p + 1, ..., p + t - 1 fall on slot x.
  function Passes(p: nat, t: nat, x: nat, n: nat): nat
    requires n > 0
  {
    if t == 0 then 0 else Passes(p, t - 1, x, n) + if (p + t - 1) % n == x then 1 else 0
  }

  lemma {:induction false} PassesMonotone(p: nat, t: nat, u: nat, x: nat, n: nat)
    requires n > 0 && t <= u
    ensures Passes(p, t, x, n) <= Passes(p, u, x, n)
    decreases u - t
  {
    if t < u { PassesMonotone(p, t, u - 1, x, n); }
  }

  // A full round passes every slot.
  lemma RoundPasses(p: nat, t: nat, x: nat, n: nat)
    requires x < n
    ensures Passes(p, t + n, x, n) >= Passes(p, t, x, n) + 1
  {
    var h := (p + t) % n;
    var q := (p + t) / n;
    var i := if x >= h then x - h else x - h + n;
    var q' := if x >= h then q else q + 1;
    assert n * (q + 1) == n * q + n;
    DivModUnique(p + t + i, n, q', x);
    PassesMonotone(p, t, t + i, x, n);
    PassesMonotone(p, t + i + 1, t + n, x, n);
    assert p + (t + i + 1) - 1 == p + t + i;
  }

  lemma ThreeRounds(p: nat, t: nat, x: nat, n: nat)
    requires x < n && t >= 3 * n
    ensures Passes(p, t, x, n) >= 3
  {
    RoundPasses(p, 0, x, n);
    RoundPasses(p, n, x, n);
    RoundPasses(p, 2 * n, x, n);
    PassesMonotone(p, 3 * n, t, x, n);
  }

  // -- the run -----------------------------------------------------------------------------------------

  function Charges(cells: seq<Cell>): (xs: seq<int>)
    ensures |xs| == |cells|
  {
    seq(|cells|, x requires 0 <= x < |cells| => Held(cells[x]))
  }

  function Total(cells: seq<Cell>): int { Sum(Charges(cells)) }

  // The number of slots in use.
  function Marks(cells: seq<Cell>): (xs: seq<int>)
    ensures |xs| == |cells|
  {
    seq(|cells|, x requires 0 <= x < |cells| => if cells[x].meta.state.Empty? then 0 else 1)
  }

  function Occupancy(cells: seq<Cell>): int { Sum(Marks(cells)) }

  lemma TotalUpdate(cells: seq<Cell>, x: nat, c: Cell)
    requires x < |cells|
    ensures Total(cells[x := c]) == Total(cells) + Held(c) - Held(cells[x])
  {
    assert Charges(cells[x := c]) == Charges(cells)[x := Held(c)];
    SumUpdate(Charges(cells), x, Held(c));
  }

  lemma OccupancyUpdate(cells: seq<Cell>, x: nat, c: Cell)
    requires x < |cells|
    ensures Occupancy(cells[x := c]) == Occupancy(cells) + Marks([c])[0] - Marks([cells[x]])[0]
  {
    assert Marks(cells[x := c]) == Marks(cells)[x := Marks([c])[0]];
    SumUpdate(Marks(cells), x, Marks([c])[0]);
  }

  // After t positions every slot has had its updates.
  predicate Swept(was: seq<Cell>, cells: seq<Cell>, p: nat, t: nat) {
    && |cells| == |was| > 0
    && forall x :: 0 <= x < |was| ==> cells[x] == Updates(was[x], Passes(p, t, x, |was|))
  }

  datatype Stop = Enough | Circled | TooMuchEffort

  datatype Report = Report(freedCharge: nat, freedCount: nat, pinned: nat)

  // What a slot adds to the report.
  function Count(r: Report, c: Cell): Report {
    Report(r.freedCharge + (if Evictable(c) then c.charge else 0),
           r.freedCount + (if Evictable(c) then 1 else 0),
           r.pinned + (if InUse(c) then 1 else 0))
  }

  // The slots and the report after the pointer has passed t positions from p on.
  function Passed(cells: seq<Cell>, p: nat, t: nat): (s: (seq<Cell>, Report))
    requires cells != []
    ensures |s.0| == |cells|
  {
    if t == 0 then (cells, Report(0, 0, 0))
    else
      var (now, r) := Passed(cells, p, t - 1);
      var x := (p + t - 1) % |cells|;
      (now[x := Update(now[x])], Count(r, now[x]))
  }

  // Exactly the slots that the pointer passed are updated, as often as it passed.
  lemma {:induction false} PassedSwept(cells: seq<Cell>, p: nat, t: nat)
    requires cells != []
    ensures Swept(cells, Passed(cells, p, t).0, p, t)
  {
    hide Update, Updates, Passes, Swept, Count;
    if t == 0 {
      SweptNone(cells, p);
    } else {
      PassedSwept(cells, p, t - 1);
      SweptMore(cells, Passed(cells, p, t - 1).0, p, t - 1);
    }
  }

  // What is reported as freed is what left the table.
  lemma {:induction false} PassedConserves(cells: seq<Cell>, p: nat, t: nat)
    requires cells != []
    ensures Total(Passed(cells, p, t).0) + Passed(cells, p, t).1.freedCharge == Total(cells)
    ensures Occupancy(Passed(cells, p, t).0) + Passed(cells, p, t).1.freedCount == Occupancy(cells)
  {
    hide Total, Occupancy;
    if t > 0 {
      PassedConserves(cells, p, t - 1);
      var now, x := Passed(cells, p, t - 1).0, (p + t - 1) % |cells|;
      TotalUpdate(now, x, Update(now[x]));
      OccupancyUpdate(now, x, Update(now[x]));
    }
  }

  lemma TotalNonNegative(cells: seq<Cell>)
    ensures Total(cells) >= 0
  {
    SumNonNegative(Charges(cells));
  }

  // One position of the clock pointer.
  method Visit(cells: array<Cell>, x: nat, r: Report) returns (r': Report)
    requires x < cells.Length
    modifies cells
    ensures cells[..] == old(cells[..])[x := Update(old(cells[x]))]
    ensures r' == Count(r, old(cells[x]))
  {
    var c := cells[x];
    r' := r;
    if Evictable(c) {
      r' := r'.(freedCharge := r.freedCharge + c.charge, freedCount := r.freedCount + 1);
    } else if InUse(c) {
      r' := r'.(pinned := r.pinned + 1);
    }
    cells[x] := Update(c);
  }

  lemma SweptMore(was: seq<Cell>, cells: seq<Cell>, p: nat, t: nat)
    requires Swept(was, cells, p, t)
    ensures var x := (p + t) % |was|; Swept(was, cells[x := Update(cells[x])], p, t + 1)
  {
    var n := |was|;
    var x := (p + t) % n;
    var cells' := cells[x := Update(cells[x])];
    forall y | 0 <= y < n ensures cells'[y] == Updates(was[y], Passes(p, t + 1, y, n)) {
      assert Passes(p, t + 1, y, n) == Passes(p, t, y, n) + if x == y then 1 else 0;
    }
  }

  // After b batches there is a reason to stop.
  predicate Stops(n: nat, request: nat, effortCap: nat, b: nat, r: Report) {
    || r.freedCharge >= request
    || STEP_SIZE * (b - 1) >= MAX_COUNTDOWN * n
    || (r.freedCount + 1) * effortCap <= r.pinned
  }

  // For the first time.
  predicate EndsAt(cells: seq<Cell>, p: nat, request: nat, effortCap: nat, b: nat)
    requires cells != []
  {
    && b > 0 && Stops(|cells|, request, effortCap, b, Passed(cells, p, STEP_SIZE * b).1)
    && forall k :: 0 < k < b ==> !Stops(|cells|, request, effortCap, k, Passed(cells, p, STEP_SIZE * k).1)
  }

  // Evict with the clock pointer at p, freeing at least `request` if it can.
  method Evict(cells: array<Cell>, p: nat, request: nat, effortCap: nat) returns (r: Report, batches: nat, why: Stop)
    requires cells.Length > 0
    modifies cells
    ensures (cells[..], r) == Passed(old(cells[..]), p, STEP_SIZE * batches)
    ensures EndsAt(old(cells[..]), p, request, effortCap, batches)
    // exactly the slots that the pointer passed were updated, as often as it passed
    ensures Swept(old(cells[..]), cells[..], p, STEP_SIZE * batches)
    // what was freed is what left the table
    ensures Total(cells[..]) + r.freedCharge == old(Total(cells[..]))
    ensures Occupancy(cells[..]) + r.freedCount == old(Occupancy(cells[..]))
    // it ends within three rounds and one more batch
    ensures 0 < batches <= (MAX_COUNTDOWN * cells.Length + STEP_SIZE - 1) / STEP_SIZE + 1
    ensures why.Enough? ==> r.freedCharge >= request
    ensures why.TooMuchEffort? ==> (r.freedCount + 1) * effortCap <= r.pinned
    // and if nothing else ends it, every slot has had its three updates
    ensures why.Circled? ==> STEP_SIZE * batches >= MAX_COUNTDOWN * cells.Length + STEP_SIZE
  {
    hide Update, Count, Total, Occupancy, Swept;
    ghost var was := cells[..];
    var n := cells.Length;
    r, batches := Report(0, 0, 0), 0;
    while true
      invariant n == cells.Length == |was| && (cells[..], r) == Passed(was, p, STEP_SIZE * batches)
      invariant forall k :: 0 < k <= batches ==> !Stops(n, request, effortCap, k, Passed(was, p, STEP_SIZE * k).1)
      invariant batches == 0 || STEP_SIZE * (batches - 1) < MAX_COUNTDOWN * n
      decreases MAX_COUNTDOWN * n + STEP_SIZE - STEP_SIZE * batches
    {
      var ptr := p + STEP_SIZE * batches;
      var i := 0;
      while i < STEP_SIZE
        invariant 0 <= i <= STEP_SIZE && n == cells.Length && (cells[..], r) == Passed(was, p, STEP_SIZE * batches + i)
      {
        r := Visit(cells, (ptr + i) % n, r);
        i := i + 1;
      }
      batches := batches + 1;
      if r.freedCharge >= request { why := Enough; break; }
      if ptr >= p + MAX_COUNTDOWN * n { why := Circled; break; }
      if (r.freedCount + 1) * effortCap <= r.pinned { why := TooMuchEffort; break; }
    }
    PassedSwept(was, p, STEP_SIZE * batches);
    PassedConserves(was, p, STEP_SIZE * batches);
  }

  lemma SweptNone(was: seq<Cell>, p: nat)
    requires |was| > 0
    ensures Swept(was, was, p, 0)
  {
  }

  // A run that circled has evicted every entry that was unreferenced and invisible
  // or had a countdown of at most 2.
  lemma CircledEvicts(was: seq<Cell>, cells: seq<Cell>, p: nat, t: nat, x: nat)
    requires Swept(was, cells, p, t) && t >= MAX_COUNTDOWN * |was| && x < |was|
    requires Shareable(was[x].meta) && was[x].meta.acq == was[x].meta.rel
    requires was[x].meta.state.Invisible? || was[x].meta.acq <= 2
    ensures cells[x].meta == CLEARED
  {
    var k := Passes(p, t, x, |was|);
    ThreeRounds(p, t, x, |was|);
    ThreeUpdates(was[x]);
    UpdatesMore(was[x], 3, k - 3);
    UpdatesStay(Updates(was[x], 3), k - 3);
  }

  // -- the same update in the transition system ----------------------------------------------------------

  // n steps of an eviction run that nobody disturbs.
  function Alone(cfg: Config, sh: Shared, pc: Pc, n: nat): (r: (Shared, Pc))
    requires Shape(cfg, sh)
    ensures Shape(cfg, r.0)
    decreases n
  {
    if n == 0 || !pc.Evict? then (sh, pc)
    else var (sh', pc') := NextEvict(cfg, sh, pc.ev, pc.sw); Alone(cfg, sh', pc', n - 1)
  }

  // The slots differ in their displacements at most.
  predicate SameEntries(sh: Shared, sh': Shared) {
    && |sh'.slots| == |sh.slots| && sh' == sh.(slots := sh'.slots)
    && forall y :: 0 <= y < |sh.slots| ==> sh'.slots[y] == sh.slots[y].(disp := sh'.slots[y].disp)
  }

  // The rollback ends, and touches nothing but displacements.
  lemma {:induction false} RollbackRuns(cfg: Config, sh: Shared, key: Key, j: nat, sw: Sweep)
    returns (n: nat, sh': Shared)
    requires Shape(cfg, sh) && j <= PosOf(key, ClockSlot(cfg, sw.ptr, sw.i), cfg.bits)
    ensures Shape(cfg, sh') && SameEntries(sh, sh')
    ensures Alone(cfg, sh, Pc.Evict(EvRollback(key, j), sw), n) == (sh', Pc.Evict(EvFree, sw))
    decreases PosOf(key, ClockSlot(cfg, sw.ptr, sw.i), cfg.bits) - j
  {
    hide Probe, Pow2, ClockSlot;
    var x := ClockSlot(cfg, sw.ptr, sw.i);
    if At(cfg, key, j) == x {
      n, sh' := 1, sh;
      assert Alone(cfg, sh, Pc.Evict(EvFree, sw), 0) == (sh, Pc.Evict(EvFree, sw));
    } else {
      n, sh' := RollbackRuns(cfg, Displace(sh, At(cfg, key, j), -1), key, j + 1, sw);
      n := n + 1;
    }
  }

  // What the counters of a run become at a slot.
  function Counted(sw: Sweep, c: Cell): Sweep {
    if Evictable(c) then sw.(freedCharge := U(sw.freedCharge + c.charge), freedCount := sw.freedCount + 1)
    else if InUse(c) then sw.(pinned := sw.pinned + 1)
    else sw
  }

  // Some number of steps from looking at a slot is one Update of that slot and of the
  // counters; no other entry changes.
  lemma UpdateRuns(cfg: Config, sh: Shared, sw: Sweep) returns (n: nat, sh': Shared)
    requires Shape(cfg, sh)
    ensures var x := ClockSlot(cfg, sw.ptr, sw.i);
      var c := Cell(sh.slots[x].meta, sh.slots[x].charge);
      && Alone(cfg, sh, Pc.Evict(EvLook, sw), n) == (sh', AfterSlot(cfg, sh, Counted(sw, c)))
      && SameEntries(sh.(slots := sh.slots[x := sh.slots[x].(meta := Update(c).meta)]), sh')
  {
    hide Probe, Pow2, ClockSlot, EffortExceeded, PosOf, U;
    var x := ClockSlot(cfg, sw.ptr, sw.i);
    var sl := sh.slots[x];
    var c := Cell(sl.meta, sl.charge);
    if Evictable(c) {
      n, sh' := EvictRuns(cfg, sh, sw);
    } else if !Shareable(sl.meta) || InUse(c) {
      n, sh' := 1, sh;
      OneStep(cfg, sh, EvLook, sw);
    } else {
      n, sh' := 2, SetMeta(sh, x, Update(c).meta);
      TwoSteps(cfg, sh, EvLook, sw);
    }
  }

  lemma OneStep(cfg: Config, sh: Shared, ev: EvictAt, sw: Sweep)
    requires Shape(cfg, sh)
    ensures Alone(cfg, sh, Pc.Evict(ev, sw), 1) == NextEvict(cfg, sh, ev, sw)
  {
    hide NextEvict;
    var (sh', pc') := NextEvict(cfg, sh, ev, sw);
    assert Alone(cfg, sh', pc', 0) == (sh', pc');
  }

  lemma TwoSteps(cfg: Config, sh: Shared, ev: EvictAt, sw: Sweep)
    requires Shape(cfg, sh)
    ensures var (sh', pc') := NextEvict(cfg, sh, ev, sw);
      Alone(cfg, sh, Pc.Evict(ev, sw), 2) == if pc'.Evict? then NextEvict(cfg, sh', pc'.ev, pc'.sw) else (sh', pc')
  {
    hide NextEvict;
    var (sh', pc') := NextEvict(cfg, sh, ev, sw);
    if pc'.Evict? { OneStep(cfg, sh', pc'.ev, pc'.sw); }
  }

  lemma {:induction false} AloneMore(cfg: Config, sh: Shared, pc: Pc, m: nat, n: nat)
    requires Shape(cfg, sh)
    ensures var (sh', pc') := Alone(cfg, sh, pc, m); Alone(cfg, sh, pc, m + n) == Alone(cfg, sh', pc', n)
    decreases m
  {
    hide NextEvict;
    if m > 0 && pc.Evict? {
      var (sh', pc') := NextEvict(cfg, sh, pc.ev, pc.sw);
      AloneMore(cfg, sh', pc', m - 1, n);
    }
  }

  // Taking the entry, rolling back, and freeing the slot.
  lemma EvictRuns(cfg: Config, sh: Shared, sw: Sweep) returns (n: nat, sh': Shared)
    requires Shape(cfg, sh)
    requires var sl := sh.slots[ClockSlot(cfg, sw.ptr, sw.i)]; Evictable(Cell(sl.meta, sl.charge))
    ensures var x := ClockSlot(cfg, sw.ptr, sw.i);
      var c := Cell(sh.slots[x].meta, sh.slots[x].charge);
      && Alone(cfg, sh, Pc.Evict(EvLook, sw), n) == (sh', AfterSlot(cfg, sh, Counted(sw, c)))
      && SameEntries(sh.(slots := sh.slots[x := sh.slots[x].(meta := Update(c).meta)]), sh')
  {
    hide Probe, Pow2, ClockSlot, AfterSlot, PosOf, U, Alone;
    var x := ClockSlot(cfg, sw.ptr, sw.i);
    var sl := sh.slots[x];
    var sw' := Counted(sw, Cell(sl.meta, sl.charge));
    var taken := SetMeta(sh, x, TAKEN.(hit := sl.meta.hit));
    TwoSteps(cfg, sh, EvLook, sw);
    var k, rolled := RollbackRuns(cfg, taken, sl.key, 0, sw');
    AloneMore(cfg, sh, Pc.Evict(EvLook, sw), 2, k);
    AloneMore(cfg, sh, Pc.Evict(EvLook, sw), 2 + k, 1);
    OneStep(cfg, rolled, EvFree, sw');
    n, sh' := 2 + k + 1, SetMeta(rolled, x, CLEARED);
    AfterSlotFrame(cfg, sh, rolled, sw');
  }

  lemma AfterSlotFrame(cfg: Config, sh: Shared, sh': Shared, sw: Sweep)
    requires sh'.strict == sh.strict
    ensures AfterSlot(cfg, sh', sw) == AfterSlot(cfg, sh, sw)
  {
  }

  // -- the whole run in the transition system --------------------------------------------------------------

  function CellsOf(sh: Shared): (cells: seq<Cell>)
    ensures |cells| == |sh.slots|
  {
    seq(|sh.slots|, x requires 0 <= x < |sh.slots| => Cell(sh.slots[x].meta, sh.slots[x].charge))
  }

  // A run that started at `was` has passed t positions: slots and counters are as in
  // Passed, and of the rest only the clock pointer has changed.
  predicate Tracks(cfg: Config, was: Shared, sh: Shared, sw: Sweep, t: nat) {
    && Shape(cfg, was) && Shape(cfg, sh) && sh == was.(slots := sh.slots, clock := sh.clock) && was.slots != []
    && (CellsOf(sh), Report(sw.freedCharge, sw.freedCount, sw.pinned)) == Passed(CellsOf(was), was.clock, t)
  }

  lemma CellsUpdate(sh: Shared, x: nat, m: Meta, sh': Shared)
    requires x < |sh.slots| && SameEntries(sh.(slots := sh.slots[x := sh.slots[x].(meta := m)]), sh')
    ensures CellsOf(sh') == CellsOf(sh)[x := Cell(m, sh.slots[x].charge)]
  {
  }

  // The counter of freed charge does not wrap around as long as the total of the table
  // is a word.
  lemma FreedFits(cells: seq<Cell>, p: nat, t: nat)
    requires cells != [] && Total(cells) < WORD
    ensures Passed(cells, p, t).1.freedCharge < WORD
  {
    PassedConserves(cells, p, t);
    TotalNonNegative(Passed(cells, p, t).0);
  }

  // One position.
  lemma PositionRuns(cfg: Config, was: Shared, sh: Shared, sw: Sweep, t: nat) returns (n: nat, sh': Shared, sw': Sweep)
    requires Tracks(cfg, was, sh, sw, t) && was.clock + t == sw.ptr + sw.i && Total(CellsOf(was)) < WORD
    ensures Tracks(cfg, was, sh', sw', t + 1) && sh'.clock == sh.clock
    ensures sw' == sw.(freedCharge := sw'.freedCharge, freedCount := sw'.freedCount, pinned := sw'.pinned)
    ensures Alone(cfg, sh, Pc.Evict(EvLook, sw), n) == (sh', AfterSlot(cfg, sh, sw'))
  {
    hide Alone, AfterSlot, Update, Total, U, Evictable, InUse, Count;
    var x := ClockSlot(cfg, sw.ptr, sw.i);
    var c := CellsOf(sh)[x];
    n, sh' := UpdateRuns(cfg, sh, sw);
    sw' := Counted(sw, c);
    CellsUpdate(sh, x, Update(c).meta, sh');
    UpdateKeepsCharge(c);
    FreedFits(CellsOf(was), was.clock, t + 1);
    CountedFits(sw, c);
  }

  lemma UpdateKeepsCharge(c: Cell)
    ensures Update(c) == Cell(Update(c).meta, c.charge)
  {
  }

  lemma CountedFits(sw: Sweep, c: Cell)
    requires Count(Report(sw.freedCharge, sw.freedCount, sw.pinned), c).freedCharge < WORD
    ensures var sw' := Counted(sw, c);
      Report(sw'.freedCharge, sw'.freedCount, sw'.pinned) == Count(Report(sw.freedCharge, sw.freedCount, sw.pinned), c)
  {
  }

  // What a run keeps of what it was asked.
  predicate SameTask(sw: Sweep, sw': Sweep) {
    sw' == sw.(freedCharge := sw'.freedCharge, freedCount := sw'.freedCount, pinned := sw'.pinned,
               ptr := sw'.ptr, max := sw'.max, i := sw'.i)
  }

  // The rest of a batch.
  lemma {:induction false} BatchRuns(cfg: Config, was: Shared, sh: Shared, sw: Sweep, t: nat)
    returns (n: nat, sh': Shared, sw': Sweep)
    requires Tracks(cfg, was, sh, sw, t) && was.clock + t == sw.ptr + sw.i && Total(CellsOf(was)) < WORD
    requires sw.i < STEP_SIZE
    ensures Tracks(cfg, was, sh', sw', t + (STEP_SIZE - sw.i)) && sh'.clock == sh.clock
    ensures SameTask(sw, sw') && sw'.ptr == sw.ptr && sw'.max == sw.max
    ensures var stop := sw'.freedCharge >= sw'.request || sw'.ptr >= sw'.max || EffortExceeded(cfg, was, sw');
      Alone(cfg, sh, Pc.Evict(EvLook, sw), n) == (sh', Pc.Evict(if stop then EvDone else EvAdvance, sw'))
    decreases STEP_SIZE - sw.i
  {
    hide Alone, Total, CellsOf, Passed, EffortExceeded;
    n, sh', sw' := PositionRuns(cfg, was, sh, sw, t);
    EffortFrame(cfg, was, sh, sw');
    if sw.i + 1 < STEP_SIZE {
      var m, sh1 := n, sh';
      var at := sw'.(i := sw.i + 1);
      n, sh', sw' := BatchRuns(cfg, was, sh1, at, t + 1);
      AloneMore(cfg, sh, Pc.Evict(EvLook, sw), m, n);
      n := m + n;
    }
  }

  lemma EffortFrame(cfg: Config, sh: Shared, sh': Shared, sw: Sweep)
    requires sh'.strict == sh.strict
    ensures EffortExceeded(cfg, sh', sw) == EffortExceeded(cfg, sh, sw)
  {
  }

  // One batch, from moving the pointer to the decision whether to go on.
  lemma OneBatch(cfg: Config, was: Shared, sh: Shared, sw: Sweep, k: nat) returns (n: nat, sh': Shared, sw': Sweep)
    requires Tracks(cfg, was, sh, sw, STEP_SIZE * k) && sh.clock == was.clock + STEP_SIZE * k
    requires Total(CellsOf(was)) < WORD && (k > 0 ==> sw.max == was.clock + MAX_COUNTDOWN * cfg.Size())
    ensures Tracks(cfg, was, sh', sw', STEP_SIZE * (k + 1)) && sh'.clock == was.clock + STEP_SIZE * (k + 1)
    ensures SameTask(sw, sw') && sw'.max == was.clock + MAX_COUNTDOWN * cfg.Size()
    ensures var r := Passed(CellsOf(was), was.clock, STEP_SIZE * (k + 1)).1;
      var stop := Stops(|was.slots|, sw.request, EffortCap(cfg, was), k + 1, r);
      Alone(cfg, sh, Pc.Evict(if k == 0 then EvStart else EvAdvance, sw), n)
        == (sh', Pc.Evict(if stop then EvDone else EvAdvance, sw'))
  {
    hide Alone, Total, CellsOf, Passed;
    var ev := if k == 0 then EvStart else EvAdvance;
    OneStep(cfg, sh, ev, sw);
    var sh1 := sh.(clock := sh.clock + STEP_SIZE);
    var sw1 := sw.(ptr := sh.clock, max := was.clock + MAX_COUNTDOWN * cfg.Size(), i := 0);
    ClockFrame(sh, sh1);
    n, sh', sw' := BatchRuns(cfg, was, sh1, sw1, STEP_SIZE * k);
    AloneMore(cfg, sh, Pc.Evict(ev, sw), 1, n);
    n := 1 + n;
  }

  lemma ClockFrame(sh: Shared, sh': Shared)
    requires sh'.slots == sh.slots
    ensures CellsOf(sh') == CellsOf(sh)
  {
  }

  // An undisturbed run of the transition system, from its start to its end, takes the
  // batches that Evict takes, leaves the slots that Evict leaves, and has the counters
  // that Evict reports.
  lemma {:induction false} WholeRun(cfg: Config, was: Shared, sh: Shared, sw: Sweep, k: nat, b: nat)
    returns (n: nat, sh': Shared, sw': Sweep)
    requires Tracks(cfg, was, sh, sw, STEP_SIZE * k) && sh.clock == was.clock + STEP_SIZE * k && k < b
    requires Total(CellsOf(was)) < WORD && (k > 0 ==> sw.max == was.clock + MAX_COUNTDOWN * cfg.Size())
    requires EndsAt(CellsOf(was), was.clock, sw.request, EffortCap(cfg, was), b)
    ensures Tracks(cfg, was, sh', sw', STEP_SIZE * b) && sh'.clock == was.clock + STEP_SIZE * b && SameTask(sw, sw')
    ensures Alone(cfg, sh, Pc.Evict(if k == 0 then EvStart else EvAdvance, sw), n) == (sh', Pc.Evict(EvDone, sw'))
    decreases b - k
  {
    hide Alone, Total, CellsOf, Passed, Stops;
    n, sh', sw' := OneBatch(cfg, was, sh, sw, k);
    if k + 1 < b {
      var m, sh1, sw1 := n, sh', sw';
      n, sh', sw' := WholeRun(cfg, was, sh1, sw1, k + 1, b);
      AloneMore(cfg, sh, Pc.Evict(if k == 0 then EvStart else EvAdvance, sw), m, n);
      n := m + n;
    }
  }

  // From the start: the counters are zero.
  lemma EvictRunsAlone(cfg: Config, sh: Shared, sw: Sweep, b: nat) returns (n: nat, sh': Shared, sw': Sweep)
    requires Shape(cfg, sh) && sh.slots != [] && Total(CellsOf(sh)) < WORD
    requires sw.freedCharge == sw.freedCount == sw.pinned == 0
    requires EndsAt(CellsOf(sh), sh.clock, sw.request, EffortCap(cfg, sh), b)
    ensures Alone(cfg, sh, Pc.Evict(EvStart, sw), n) == (sh', Pc.Evict(EvDone, sw')) && SameTask(sw, sw')
    ensures (CellsOf(sh'), Report(sw'.freedCharge, sw'.freedCount, sw'.pinned))
      == Passed(CellsOf(sh), sh.clock, STEP_SIZE * b)
    ensures sh' == sh.(slots := sh'.slots, clock := sh.clock + STEP_SIZE * b)
  {
    hide Alone, Total, CellsOf;
    n, sh', sw' := WholeRun(cfg, sh, sh, sw, 0, b);
  }

  // -- the effort limit -----------------------------------------------------------------------------------

  lemma {:induction false} PinnedBounded(cells: seq<Cell>, p: nat, t: nat)
    requires cells != []
    ensures Passed(cells, p, t).1.pinned <= t
  {
    if t > 0 { PinnedBounded(cells, p, t - 1); }
  }

  // The strict limit lifts the effort limit: as long as fewer than 2^31 positions were
  // passed, a run stops only with enough or after its full rounds. Without the strict limit
  // the effort limit is the configured one.
  lemma StrictIgnoresEffort(cfg: Config, sh: Shared, request: nat, b: nat)
    requires Shape(cfg, sh) && sh.slots != [] && STEP_SIZE * b < 0x8000_0000
    ensures var r := Passed(CellsOf(sh), sh.clock, STEP_SIZE * b).1;
      && (sh.strict ==>
            (Stops(|sh.slots|, request, EffortCap(cfg, sh), b, r) <==>
               r.freedCharge >= request || STEP_SIZE * (b - 1) >= MAX_COUNTDOWN * |sh.slots|))
      && (!sh.strict ==> EffortCap(cfg, sh) == cfg.effortCap)
  {
    hide CellsOf, Passed;
    var r := Passed(CellsOf(sh), sh.clock, STEP_SIZE * b).1;
    PinnedBounded(CellsOf(sh), sh.clock, STEP_SIZE * b);
    if sh.strict { AtLeastCap(r.freedCount, EffortCap(cfg, sh)); }
  }

  lemma AtLeastCap(count: nat, cap: nat)
    ensures (count + 1) * cap >= cap
  {
    assert (count + 1) * cap == count * cap + cap;
  }
}
