// FixedHyperClockTable as a transition system: any number of threads run
// Lookup, Insert (with its charging and eviction), Erase, Release, Ref,
// EraseUnRefEntries and ApplyToSomeEntries on one shared table. Every atomic
// operation of the source is one step; the local computation between two
// atomic operations belongs to the step before it.
module ClockTable {
  import opened Probing

  // -- the meta word ------------------------------------------------------

  datatype SlotState = Empty | Construction | Invisible | Visible

  datatype Meta = Meta(acq: nat, rel: nat, hit: bool, state: SlotState)

  predicate Shareable(m: Meta) {
    m.state.Invisible? || m.state.Visible?
  }

  const COUNTER_RANGE: nat := 0x4000_0000
  const COUNTER_LIMIT: nat := 0x2000_0000
  const WORD: nat := 0x1_0000_0000_0000_0000
  const MAX_COUNTDOWN: nat := 3
  const STEP_SIZE: nat := 4

  // The difference of the two counters, in the width of a counter.
  function Refcount(m: Meta): nat {
    (m.acq - m.rel) % COUNTER_RANGE
  }

  const CLEARED := Meta(0, 0, false, Empty)
  const TAKEN := Meta(0, 0, false, Construction)

  // -- shared state -------------------------------------------------------

  datatype Slot = Slot(meta: Meta, key: Key, charge: nat, disp: int)

  // `metadata` is what the constructor charges for the table itself.
  datatype Config = Config(bits: nat, occupancyLimit: nat, effortCap: nat, tracksHits: bool, metadata: nat) {
    function Size(): (n: nat)
      ensures n >= 1
    {
      Pow2(bits)
    }
  }

  // `users[x]` counts the handles of slot x that callers hold (results of
  // Lookup, Insert and Ref not yet passed to Release). `loose` is the total
  // charge of live standalone entries.
  datatype Shared = Shared(
    slots: seq<Slot>, users: seq<nat>, usage: nat, occupancy: int, loose: nat,
    clock: nat, capacity: nat, strict: bool)

  // size_t arithmetic
  function U(x: int): (r: nat)
    ensures r < WORD
  {
    x % WORD
  }

  predicate Cong(a: int, b: int) {
    (a - b) % WORD == 0
  }

  // -- thread-local state -------------------------------------------------

  // `alone` marks CreateStandalone, which charges the entry like Insert but never
  // looks for a slot and reserves no occupancy.
  datatype Ins = Ins(key: Key, charge: nat, countdown: nat, handle: bool, alone: bool)

  // One run of Evict together with the charging decision that asked for it.
  // `taken` is what the charging CAS added to usage_ (negative when usage_ was
  // above the capacity that had been read).
  datatype Sweep = Sweep(
    ins: Ins, strict: bool, needOcc: bool, need: nat, request: nat, taken: int,
    freedCharge: nat, freedCount: nat, pinned: nat, ptr: nat, max: nat, i: nat)

  datatype Option<T> = None | Some(value: T)

  datatype LookupAt = LkAcquire | LkCompare | LkHit | LkUnref | LkAbort

  datatype EraseAt = ErAcquire | ErCompare | ErHide | ErTake(seen: Meta) | ErUnref | ErAbort

  datatype ChargeAt =
    | ChOccupy
    | ChMode(needOcc: bool)
    | ChCapacity(needOcc: bool)
    | ChUsage(needOcc: bool, cap: nat)
    | ChCas(needOcc: bool, cap: nat, was: nat)
    | ChLaxUsage(needOcc: bool)
    | ChLaxCapacity(needOcc: bool, was: nat)

  datatype EvictAt =
    | EvStart | EvAdvance | EvLook | EvAge(seen: Meta) | EvTake(seen: Meta)
    | EvRollback(key: Key, j: nat) | EvFree | EvDone | EvSettle

  datatype InsertAt = InClaim | InAcquire | InCompare | InBoost | InUnref | InDisplace | InFill | InPublish

  datatype Why = Refused | ChargeFailed | NotInserted

  datatype UndoAt = UnRollback(j: nat, stop: nat) | UnOccupancy(why: Why) | UnRefund | UnForce | UnStandalone

  // Erase frees a slot and then rolls back, so it carries its own copy of the
  // key and continues its search afterwards.
  datatype RemoveAt = RmFree | RmOccupancy | RmUsage | RmRollback(j: nat)

  datatype ReleaseAt = RlTake(seen: Meta) | RlSweep(seen: Meta) | RlApply | RlUnref

  datatype DropAt = DrRollback(key: Key, j: nat) | DrFree | DrOccupancy | DrUsage

  datatype Pc =
    | Idle
    | Done(result: Option<nat>)
    | Lookup(lk: LookupAt, key: Key, i: nat)
    | Charge(ch: ChargeAt, ins: Ins)
    | Evict(ev: EvictAt, sw: Sweep)
    | Insert(at: InsertAt, ins: Ins, i: nat)
    | Undo(un: UndoAt, ins: Ins)
    | Erase(er: EraseAt, key: Key, i: nat)
    | Remove(rm: RemoveAt, key: Key, i: nat, charge: nat)
    | Release(rl: ReleaseAt, x: nat)
    | Drop(dr: DropAt, x: nat, charge: nat)

  // What an idle thread decides to do next, and whether a weak CAS fails
  // spuriously.
  datatype Choice =
    | StartLookup(key: Key)
    | StartErase(key: Key)
    | StartInsert(ins: Ins)
    | StartStandalone(charge: nat)
    | StartRelease(x: nat, useful: bool, eraseIfLast: bool)
    | StartRef(x: nat)
    | StartSweep(x: nat)
    | StartApply(x: nat)
    | DropStandalone(charge: nat)
    | SetCapacity(capacity: nat)
    | SetStrict(strict: bool)
    | Go(spurious: bool)

  datatype State = State(sh: Shared, threads: seq<Pc>)

  predicate Shape(cfg: Config, sh: Shared) {
    |sh.slots| == |sh.users| == cfg.Size()
  }

  // The slot numbers a program counter mentions directly are in range.
  predicate InRange(cfg: Config, pc: Pc) {
    pc.Release? || pc.Drop? ==> pc.x < cfg.Size()
  }

  // -- small building blocks ----------------------------------------------

  function At(cfg: Config, key: Key, i: nat): (x: nat)
    ensures x < cfg.Size()
  {
    Probe(key, i, cfg.Size())
  }

  function ClockSlot(cfg: Config, ptr: nat, i: nat): (x: nat)
    ensures x < cfg.Size()
  {
    (ptr + i) % cfg.Size()
  }

  function SetMeta(sh: Shared, x: nat, m: Meta): Shared
    requires x < |sh.slots|
  {
    sh.(slots := sh.slots[x := sh.slots[x].(meta := m)])
  }

  function Displace(sh: Shared, x: nat, d: int): Shared
    requires x < |sh.slots|
  {
    sh.(slots := sh.slots[x := sh.slots[x].(disp := sh.slots[x].disp + d)])
  }

  // Give a reference to the caller as a handle.
  function Hand(sh: Shared, x: nat): Shared
    requires x < |sh.users|
  {
    sh.(users := sh.users[x := sh.users[x] + 1])
  }

  // FetchSub on the acquire counter of a word that has that many acquires.
  function Unacquire(m: Meta, count: nat): Meta {
    m.(acq := if m.acq >= count then m.acq - count else 0)
  }

  function Min(a: nat, b: nat): nat { if a < b then a else b }

  // -- Lookup -------------------------------------------------------------

  function NextLookup(cfg: Config, sh: Shared, lk: LookupAt, key: Key, i: nat): (r: (Shared, Pc))
    requires Shape(cfg, sh)
    ensures Shape(cfg, r.0) && InRange(cfg, r.1)
  {
    var x := At(cfg, key, i);
    var m := sh.slots[x].meta;
    match lk
    case LkAcquire =>
      (SetMeta(sh, x, m.(acq := m.acq + 1)),
       Lookup(if m.state.Visible? then LkCompare else if m.state.Invisible? then LkUnref else LkAbort, key, i))
    case LkCompare =>
      if sh.slots[x].key != key then (sh, Lookup(LkUnref, key, i))
      else if cfg.tracksHits then (sh, Lookup(LkHit, key, i))
      else (Hand(sh, x), Done(Some(x)))
    case LkHit =>
      (Hand(SetMeta(sh, x, m.(hit := true)), x), Done(Some(x)))
    case LkUnref =>
      (SetMeta(sh, x, Unacquire(m, 1)), Lookup(LkAbort, key, i))
    case LkAbort =>
      (sh, if sh.slots[x].disp == 0 || At(cfg, key, i + 1) == At(cfg, key, 0) then Done(None)
           else Lookup(LkAcquire, key, i + 1))
  }

  // -- Insert: occupancy and charging -------------------------------------

  function NewUsage(was: nat, charge: nat, cap: nat): nat {
    Min(cap, U(was + charge))
  }

  // The charge has been accepted.
  function Accepted(ins: Ins): Pc {
    if ins.alone then Undo(UnStandalone, ins) else Insert(InClaim, ins, 0)
  }

  // The strict limit has refused the charge. A standalone entry is then created
  // without charge or not at all.
  function NotAccepted(ins: Ins): Pc {
    if ins.alone then Done(None) else Undo(UnOccupancy(Refused), ins)
  }

  // After the charging CAS: evict if anything is missing, else go insert.
  function AfterCas(ins: Ins, needOcc: bool, was: nat, now: nat): Pc {
    var need := U(was + ins.charge - now);
    var request := if needOcc && need == 0 then 1 else need;
    if request > 0
    then Evict(EvStart, Sweep(ins, true, needOcc, need, request, now - was, 0, 0, 0, 0, 0, 0))
    else Accepted(ins)
  }

  function LaxNeed(ins: Ins, needOcc: bool, was: nat, cap: nat): nat {
    var need :=
      if U(was + ins.charge) <= cap || ins.charge > was then 0
      else if was > cap then ins.charge + Min(cap / 1024, ins.charge) + 1
      else ins.charge;
    if needOcc && need == 0 then 1 else need
  }

  function NextCharge(cfg: Config, sh: Shared, ch: ChargeAt, ins: Ins, spurious: bool): (r: (Shared, Pc))
    requires Shape(cfg, sh)
    ensures Shape(cfg, r.0) && InRange(cfg, r.1)
  {
    match ch
    case ChOccupy =>
      (sh.(occupancy := sh.occupancy + 1), Charge(ChMode(sh.occupancy + 1 > cfg.occupancyLimit), ins))
    case ChMode(needOcc) =>
      (sh, Charge(if sh.strict then ChCapacity(needOcc) else ChLaxUsage(needOcc), ins))
    case ChCapacity(needOcc) =>
      (sh, if ins.charge > sh.capacity then NotAccepted(ins)
           else Charge(ChUsage(needOcc, sh.capacity), ins))
    case ChUsage(needOcc, cap) =>
      (sh, Charge(ChCas(needOcc, cap, sh.usage), ins))
    case ChCas(needOcc, cap, was) =>
      var now := NewUsage(was, ins.charge, cap);
      if now == was then (sh, AfterCas(ins, needOcc, was, now))
      else if sh.usage == was && !spurious then (sh.(usage := now), AfterCas(ins, needOcc, was, now))
      else (sh, Charge(ChCas(needOcc, cap, sh.usage), ins))
    case ChLaxUsage(needOcc) =>
      (sh, Charge(ChLaxCapacity(needOcc, sh.usage), ins))
    case ChLaxCapacity(needOcc, was) =>
      var request := LaxNeed(ins, needOcc, was, sh.capacity);
      (sh, Evict(if request > 0 then EvStart else EvSettle,
                 Sweep(ins, false, needOcc, 0, request, 0, 0, 0, 0, 0, 0, 0)))
  }

  // -- Evict ---------------------------------------------------------------

  // strict_capacity_limit is the top bit of the effective effort cap.
  function EffortCap(cfg: Config, sh: Shared): nat {
    cfg.effortCap + (if sh.strict then 0x8000_0000 else 0)
  }

  predicate EffortExceeded(cfg: Config, sh: Shared, sw: Sweep) {
    (sw.freedCount + 1) * EffortCap(cfg, sh) <= sw.pinned
  }

  // After one slot of a batch: the next slot, the next batch, or the end.
  function AfterSlot(cfg: Config, sh: Shared, sw: Sweep): Pc {
    if sw.i + 1 < STEP_SIZE then Evict(EvLook, sw.(i := sw.i + 1))
    else if sw.freedCharge >= sw.request || sw.ptr >= sw.max || EffortExceeded(cfg, sh, sw) then Evict(EvDone, sw)
    else Evict(EvAdvance, sw)
  }

  function NextEvict(cfg: Config, sh: Shared, ev: EvictAt, sw: Sweep): (r: (Shared, Pc))
    requires Shape(cfg, sh)
    ensures Shape(cfg, r.0) && InRange(cfg, r.1)
  {
    var x := ClockSlot(cfg, sw.ptr, sw.i);
    var m := sh.slots[x].meta;
    match ev
    case EvStart =>
      (sh.(clock := sh.clock + STEP_SIZE),
       Evict(EvLook, sw.(ptr := sh.clock, max := sh.clock + MAX_COUNTDOWN * cfg.Size(), i := 0)))
    case EvAdvance =>
      (sh.(clock := sh.clock + STEP_SIZE), Evict(EvLook, sw.(ptr := sh.clock, i := 0)))
    case EvLook =>
      (sh, if !Shareable(m) then AfterSlot(cfg, sh, sw)
           else if m.acq != m.rel then AfterSlot(cfg, sh, sw.(pinned := sw.pinned + 1))
           else if m.state.Visible? && m.acq > 0 then Evict(EvAge(m), sw)
           else Evict(EvTake(m), sw))
    case EvAge(seen) =>
      if m == seen && m.acq > 0 then
        var count := Min(m.acq - 1, MAX_COUNTDOWN - 1);
        (SetMeta(sh, x, Meta(count, count, m.hit, Visible)), AfterSlot(cfg, sh, sw))
      else (sh, AfterSlot(cfg, sh, sw))
    case EvTake(seen) =>
      if m == seen then
        (SetMeta(sh, x, TAKEN.(hit := m.hit)),
         Evict(EvRollback(sh.slots[x].key, 0),
               sw.(freedCharge := U(sw.freedCharge + sh.slots[x].charge), freedCount := sw.freedCount + 1)))
      else (sh, AfterSlot(cfg, sh, sw))
    case EvRollback(key, j) =>
      if At(cfg, key, j) == x then (sh, Evict(EvFree, sw))
      else (Displace(sh, At(cfg, key, j), -1), Evict(EvRollback(key, j + 1), sw))
    case EvFree =>
      (SetMeta(sh, x, CLEARED), AfterSlot(cfg, sh, sw))
    case EvDone =>
      if !sw.strict && sw.needOcc && sw.freedCount == 0 then
        (sh, Undo(if sw.ins.alone then UnForce else UnOccupancy(ChargeFailed), sw.ins))
      else (sh.(occupancy := sh.occupancy - sw.freedCount), Evict(EvSettle, sw))
    case EvSettle =>
      if !sw.strict then
        (sh.(usage := U(sh.usage + sw.ins.charge - sw.freedCharge)), Accepted(sw.ins))
      else if sw.freedCharge > sw.need then
        (sh.(usage := U(sh.usage - (sw.freedCharge - sw.need))), Accepted(sw.ins))
      else if sw.freedCharge < sw.need || (sw.needOcc && sw.freedCount == 0) then
        (sh.(usage := U(sh.usage - (sw.freedCharge + sw.taken))), NotAccepted(sw.ins))
      else (sh, Accepted(sw.ins))
  }

  // -- Insert: finding a slot ----------------------------------------------

  function NextInsert(cfg: Config, sh: Shared, at: InsertAt, ins: Ins, i: nat): (r: (Shared, Pc))
    requires Shape(cfg, sh)
    ensures Shape(cfg, r.0) && InRange(cfg, r.1)
  {
    var x := At(cfg, ins.key, i);
    var m := sh.slots[x].meta;
    match at
    case InClaim =>
      if m.state.Empty? then (SetMeta(sh, x, m.(state := Construction)), Insert(InFill, ins, i))
      else (sh, Insert(if m.state.Visible? then InAcquire else InDisplace, ins, i))
    case InAcquire =>
      (SetMeta(sh, x, m.(acq := m.acq + ins.countdown)),
       Insert(if m.state.Visible? then InCompare else if m.state.Invisible? then InUnref else InDisplace, ins, i))
    case InCompare =>
      (sh, Insert(if sh.slots[x].key == ins.key then InBoost else InUnref, ins, i))
    case InBoost =>
      (SetMeta(sh, x, m.(rel := m.rel + ins.countdown)), Undo(UnRollback(0, i), ins))
    case InUnref =>
      (SetMeta(sh, x, Unacquire(m, ins.countdown)), Insert(InDisplace, ins, i))
    case InDisplace =>
      if At(cfg, ins.key, i + 1) == At(cfg, ins.key, 0) then (sh, Undo(UnRollback(0, i), ins))
      else (Displace(sh, x, 1), Insert(InClaim, ins, i + 1))
    case InFill =>
      (sh.(slots := sh.slots[x := sh.slots[x].(key := ins.key, charge := ins.charge)]), Insert(InPublish, ins, i))
    case InPublish =>
      var kept := if ins.handle && ins.countdown > 0 then 1 else 0;
      var done := SetMeta(sh, x, Meta(ins.countdown, ins.countdown - kept, false, Visible));
      if ins.handle then (Hand(done, x), Done(Some(x))) else (done, Done(None))
  }

  function NextUndo(cfg: Config, sh: Shared, un: UndoAt, ins: Ins): (r: (Shared, Pc))
    requires Shape(cfg, sh)
    ensures Shape(cfg, r.0) && InRange(cfg, r.1)
  {
    match un
    case UnRollback(j, stop) =>
      if At(cfg, ins.key, j) == At(cfg, ins.key, stop) then (sh, Undo(UnOccupancy(NotInserted), ins))
      else (Displace(sh, At(cfg, ins.key, j), -1), Undo(UnRollback(j + 1, stop), ins))
    case UnOccupancy(why) =>
      (sh.(occupancy := sh.occupancy - 1),
       if why.NotInserted? then Undo(if ins.handle then UnStandalone else UnRefund, ins)
       else if why.ChargeFailed? && ins.handle then Undo(UnForce, ins)
       else Done(None))
    case UnRefund => (sh.(usage := U(sh.usage - ins.charge)), Done(None))
    case UnForce => (sh.(usage := U(sh.usage + ins.charge)), Undo(UnStandalone, ins))
    case UnStandalone => (sh.(loose := sh.loose + ins.charge), Done(None))
  }

  // -- Erase ---------------------------------------------------------------

  function NextErase(cfg: Config, sh: Shared, er: EraseAt, key: Key, i: nat, spurious: bool): (r: (Shared, Pc))
    requires Shape(cfg, sh)
    ensures Shape(cfg, r.0) && InRange(cfg, r.1)
  {
    var x := At(cfg, key, i);
    var m := sh.slots[x].meta;
    match er
    case ErAcquire =>
      (SetMeta(sh, x, m.(acq := m.acq + 1)),
       Erase(if m.state.Visible? then ErCompare else if m.state.Invisible? then ErUnref else ErAbort, key, i))
    case ErCompare =>
      (sh, Erase(if sh.slots[x].key == key then ErHide else ErUnref, key, i))
    case ErHide =>
      var hidden := if m.state.Visible? then m.(state := Invisible) else m;
      (SetMeta(sh, x, hidden), Erase(ErTake(hidden), key, i))
    case ErTake(seen) =>
      if Refcount(seen) > 1 then (sh, Erase(ErUnref, key, i))
      else if m == seen && !spurious then (SetMeta(sh, x, TAKEN), Remove(RmFree, key, i, sh.slots[x].charge))
      else (sh, Erase(ErTake(m), key, i))
    case ErUnref =>
      (SetMeta(sh, x, Unacquire(m, 1)), Erase(ErAbort, key, i))
    case ErAbort =>
      (sh, if sh.slots[x].disp == 0 || At(cfg, key, i + 1) == At(cfg, key, 0) then Done(None)
           else Erase(ErAcquire, key, i + 1))
  }

  // Erase owns the slot: free it, give back occupancy and usage, and only then
  // roll back displacements ("OK to delay Rollback").
  function NextRemove(cfg: Config, sh: Shared, rm: RemoveAt, key: Key, i: nat, charge: nat): (r: (Shared, Pc))
    requires Shape(cfg, sh)
    ensures Shape(cfg, r.0) && InRange(cfg, r.1)
  {
    match rm
    case RmFree => (SetMeta(sh, At(cfg, key, i), CLEARED), Remove(RmOccupancy, key, i, charge))
    case RmOccupancy => (sh.(occupancy := sh.occupancy - 1), Remove(RmUsage, key, i, charge))
    case RmUsage => (sh.(usage := U(sh.usage - charge)), Remove(RmRollback(0), key, i, charge))
    case RmRollback(j) =>
      if At(cfg, key, j) == At(cfg, key, i) then (sh, Erase(ErAbort, key, i))
      else (Displace(sh, At(cfg, key, j), -1), Remove(RmRollback(j + 1), key, i, charge))
  }

  // -- Release, EraseUnRefEntries, ApplyToSomeEntries -----------------------

  function NextRelease(cfg: Config, sh: Shared, rl: ReleaseAt, x: nat, spurious: bool): (r: (Shared, Pc))
    requires Shape(cfg, sh) && x < cfg.Size()
    ensures Shape(cfg, r.0) && InRange(cfg, r.1)
  {
    var sl := sh.slots[x];
    var m := sl.meta;
    match rl
    case RlTake(seen) =>
      if Refcount(seen) != 0 || !Shareable(seen) then (sh, Done(None))
      else if m == seen && !spurious then (SetMeta(sh, x, TAKEN), Drop(DrRollback(sl.key, 0), x, sl.charge))
      else (sh, Release(RlTake(m), x))
    case RlSweep(seen) =>
      if m == seen then (SetMeta(sh, x, TAKEN), Drop(DrRollback(sl.key, 0), x, sl.charge)) else (sh, Done(None))
    case RlApply =>
      (SetMeta(sh, x, m.(acq := m.acq + 1)), if Shareable(m) then Release(RlUnref, x) else Done(None))
    case RlUnref =>
      (SetMeta(sh, x, Unacquire(m, 1)), Done(None))
  }

  // Release or EraseUnRefEntries owns the slot: roll back, free, give back.
  function NextDrop(cfg: Config, sh: Shared, dr: DropAt, x: nat, charge: nat): (r: (Shared, Pc))
    requires Shape(cfg, sh) && x < cfg.Size()
    ensures Shape(cfg, r.0) && InRange(cfg, r.1)
  {
    match dr
    case DrRollback(key, j) =>
      if At(cfg, key, j) == x then (sh, Drop(DrFree, x, charge))
      else (Displace(sh, At(cfg, key, j), -1), Drop(DrRollback(key, j + 1), x, charge))
    case DrFree => (SetMeta(sh, x, CLEARED), Drop(DrOccupancy, x, charge))
    case DrOccupancy => (sh.(occupancy := sh.occupancy - 1), Drop(DrUsage, x, charge))
    case DrUsage => (sh.(usage := U(sh.usage - charge)), Done(None))
  }

  // -- starting an operation -------------------------------------------------

  function Begin(cfg: Config, sh: Shared, ch: Choice): (r: (Shared, Pc))
    requires Shape(cfg, sh)
    ensures Shape(cfg, r.0) && InRange(cfg, r.1)
  {
    match ch
    case StartLookup(key) => (sh, Lookup(LkAcquire, key, 0))
    case StartErase(key) => (sh, Erase(ErAcquire, key, 0))
    case StartInsert(ins) =>
      (sh, if 1 <= ins.countdown <= MAX_COUNTDOWN && ins.charge < WORD && !ins.alone
           then Charge(ChOccupy, ins) else Idle)
    case StartStandalone(charge) =>
      (sh, if charge < WORD then Charge(ChMode(false), Ins(Key(0, 0), charge, 1, true, true)) else Idle)
    case StartRelease(x, useful, eraseIfLast) =>
      if x >= cfg.Size() || sh.users[x] == 0 then (sh, Idle) else
      var m := sh.slots[x].meta;
      var m' := if useful then m.(rel := m.rel + 1) else Unacquire(m, 1);
      (SetMeta(sh, x, m').(users := sh.users[x := sh.users[x] - 1]),
       if eraseIfLast || m.state.Invisible? then Release(RlTake(m'), x) else Done(None))
    case StartRef(x) =>
      if x >= cfg.Size() || sh.users[x] == 0 then (sh, Idle) else
      var m := sh.slots[x].meta;
      (Hand(SetMeta(sh, x, m.(acq := m.acq + 1)), x), Done(Some(x)))
    case StartSweep(x) =>
      (sh, if x < cfg.Size() && Shareable(sh.slots[x].meta) && Refcount(sh.slots[x].meta) == 0
           then Release(RlSweep(sh.slots[x].meta), x) else Idle)
    case StartApply(x) =>
      (sh, if x < cfg.Size() && Shareable(sh.slots[x].meta) then Release(RlApply, x) else Idle)
    case DropStandalone(charge) =>
      if charge <= sh.loose then (sh.(loose := sh.loose - charge, usage := U(sh.usage - charge)), Done(None))
      else (sh, Idle)
    case SetCapacity(capacity) => (sh.(capacity := U(capacity)), Idle)
    case SetStrict(strict) => (sh.(strict := strict), Idle)
    case Go(_) => (sh, Idle)
  }

  function Next(cfg: Config, sh: Shared, pc: Pc, ch: Choice): (r: (Shared, Pc))
    requires Shape(cfg, sh) && InRange(cfg, pc)
    ensures Shape(cfg, r.0) && InRange(cfg, r.1)
  {
    var spurious := ch.Go? && ch.spurious;
    match pc
    case Idle => Begin(cfg, sh, ch)
    case Done(_) => (sh, Idle)
    case Lookup(lk, key, i) => NextLookup(cfg, sh, lk, key, i)
    case Charge(c, ins) => NextCharge(cfg, sh, c, ins, spurious)
    case Evict(ev, sw) => NextEvict(cfg, sh, ev, sw)
    case Insert(at, ins, i) => NextInsert(cfg, sh, at, ins, i)
    case Undo(un, ins) => NextUndo(cfg, sh, un, ins)
    case Erase(er, key, i) => NextErase(cfg, sh, er, key, i, spurious)
    case Remove(rm, key, i, charge) => NextRemove(cfg, sh, rm, key, i, charge)
    case Release(rl, x) => NextRelease(cfg, sh, rl, x, spurious)
    case Drop(dr, x, charge) => NextDrop(cfg, sh, dr, x, charge)
  }

  predicate WellFormed(cfg: Config, st: State) {
    && Shape(cfg, st.sh)
    && forall t :: 0 <= t < |st.threads| ==> InRange(cfg, st.threads[t])
  }

  // Thread t takes one step.
  function Step(cfg: Config, st: State, t: nat, ch: Choice): (st': State)
    requires WellFormed(cfg, st) && t < |st.threads|
    ensures WellFormed(cfg, st') && |st'.threads| == |st.threads|
  {
    var (sh, pc) := Next(cfg, st.sh, st.threads[t], ch);
    State(sh, st.threads[t := pc])
  }
}
