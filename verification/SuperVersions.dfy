// The thread-local cache of SuperVersions: readers swap a cached pointer out of
// their slot, use it without a lock and put it back by compare-and-swap; an
// installer publishes a new SuperVersion and scrapes every slot. Every
// interleaving of the atomic steps below is a run.
module SuperVersions {

  // A thread-local pointer: kSVObsolete, kSVInUse, or a SuperVersion.
  datatype Slot = Obsolete | InUse | Cached(sv: nat)

  // SuperVersions are numbered in order of installation. refs is the reference
  // count of each, cleaned how often Cleanup ran on it, outside how many references
  // are held by callers outside of these operations (iterators and the like). db
  // and tls are the owners of the DB mutex and of the ThreadLocalPtr mutex, -1 if
  // free.
  datatype Shared = Shared(refs: seq<int>, cleaned: seq<nat>, outside: seq<nat>, current: nat,
                           slots: seq<Slot>, db: int, tls: int)

  datatype ReadStep = Want | Locked | Unlocking | Using | Referenced | Surplus
  datatype LeaveStep = Unref | LockDb | Cleanup
  datatype ExitStep = LoadSlot | DropSlot
  datatype InstallStep = Enter | Publish | LockTls | Scrape | UnrefScraped | UnrefOld | CleanOld | Finish

  datatype Pc =
    | Idle
    | Dead                                                      // the thread has exited
    | Read(rs: ReadStep, v: nat)                                // Get..., Return... and GetReferencedSuperVersion
    | Leave(ls: LeaveStep, v: nat)                              // CleanupSuperVersion
    | Exit(es: ExitStep, v: nat)                                // SuperVersionUnrefHandle at thread exit
    | Install(is_: InstallStep, old_: nat, k: nat, got: seq<nat>) // InstallSuperVersion
    | Broken                                                    // an assertion of the code failed

  datatype Choice = Get | DropOutside(v: nat) | ExitThread | InstallNew | Return | TakeReference

  function Refs(s: Shared, v: nat): int { if v < |s.refs| then s.refs[v] else 0 }
  function Cleaned(s: Shared, v: nat): nat { if v < |s.cleaned| then s.cleaned[v] else 0 }
  function Outside(s: Shared, v: nat): nat { if v < |s.outside| then s.outside[v] else 0 }

  function AddRef(s: Shared, v: nat, d: int): Shared {
    if v < |s.refs| then s.(refs := s.refs[v := s.refs[v] + d]) else s
  }

  function AddClean(s: Shared, v: nat): Shared {
    if v < |s.cleaned| then s.(cleaned := s.cleaned[v := s.cleaned[v] + 1]) else s
  }

  function SetOutside(s: Shared, v: nat, n: nat): Shared {
    if v < |s.outside| then s.(outside := s.outside[v := n]) else s
  }

  function SetSlot(s: Shared, i: nat, x: Slot): Shared {
    if i < |s.slots| then s.(slots := s.slots[i := x]) else s
  }

  function SlotAt(s: Shared, i: nat): Slot {
    if i < |s.slots| then s.slots[i] else Obsolete
  }

  function Next(s: Shared, i: nat, pc: Pc, ch: Choice): (Shared, Pc) {
    match pc
    case Idle => NextIdle(s, i, ch)
    case Dead => (s, pc)
    case Read(rs, v) => NextRead(s, i, rs, v, ch)
    case Leave(ls, v) => NextLeave(s, i, ls, v)
    case Exit(es, v) => NextExit(s, i, es, v)
    case Install(is_, old_, k, got) => NextInstall(s, i, is_, old_, k, got)
    case Broken => (s, pc)
  }

  function NextIdle(s: Shared, i: nat, ch: Choice): (Shared, Pc) {
    match ch
    case Get =>
      (match SlotAt(s, i)
       case Obsolete => (SetSlot(s, i, InUse), Read(Want, 0))
       case InUse => (s, Broken)
       case Cached(v) => (SetSlot(s, i, InUse), Read(Using, v)))
    case DropOutside(v) =>
      if Outside(s, v) > 0 then (SetOutside(s, v, Outside(s, v) - 1), Leave(Unref, v)) else (s, Idle)
    case ExitThread => if s.tls < 0 then (s.(tls := i), Exit(LoadSlot, 0)) else (s, Idle)
    case InstallNew => (s, Install(Enter, 0, 0, []))
    case _ => (s, Idle)
  }

  function NextRead(s: Shared, i: nat, rs: ReadStep, v: nat, ch: Choice): (Shared, Pc) {
    match rs
    case Want => if s.db < 0 then (s.(db := i), Read(Locked, 0)) else (s, Read(Want, v))
    case Locked => (AddRef(s, s.current, 1), Read(Unlocking, s.current))
    case Unlocking => (s.(db := -1), Read(Using, v))
    case Using =>
      if ch.Return? then
        (match SlotAt(s, i)
         case InUse => (SetSlot(s, i, Cached(v)), Idle)
         case Obsolete => (s, Leave(Unref, v))
         case Cached(_) => (s, Broken))
      else if ch.TakeReference? then (AddRef(s, v, 1), Read(Referenced, v))
      else (s, Read(Using, v))
    case Referenced =>
      (match SlotAt(s, i)
       case InUse => (SetOutside(SetSlot(s, i, Cached(v)), v, Outside(s, v) + 1), Idle)
       case Obsolete => (s, Read(Surplus, v))
       case Cached(_) => (s, Broken))
    case Surplus =>
      // the result of this Unref is ignored: it must not be the last reference
      if Refs(s, v) <= 1 then (s, Broken)
      else (SetOutside(AddRef(s, v, -1), v, Outside(s, v) + 1), Idle)
  }

  function NextLeave(s: Shared, i: nat, ls: LeaveStep, v: nat): (Shared, Pc) {
    match ls
    case Unref =>
      if Refs(s, v) <= 0 then (s, Broken)
      else (AddRef(s, v, -1), if Refs(s, v) == 1 then Leave(LockDb, v) else Idle)
    case LockDb => if s.db < 0 then (s.(db := i), Leave(Cleanup, v)) else (s, Leave(LockDb, v))
    case Cleanup => if Refs(s, v) != 0 then (s, Broken) else (AddClean(s, v).(db := -1), Idle)
  }

  function NextExit(s: Shared, i: nat, es: ExitStep, v: nat): (Shared, Pc) {
    match es
    case LoadSlot =>
      (match SlotAt(s, i)
       case Obsolete => (s.(tls := -1), Dead)
       case InUse => (s, Broken)
       case Cached(w) => (SetSlot(s, i, Obsolete), Exit(DropSlot, w)))
    case DropSlot => if Refs(s, v) <= 1 then (s, Broken) else (AddRef(s, v, -1).(tls := -1), Dead)
  }

  function NextInstall(s: Shared, i: nat, is_: InstallStep, old_: nat, k: nat, got: seq<nat>): (Shared, Pc) {
    match is_
    case Enter => if s.db < 0 then (s.(db := i), Install(Publish, 0, 0, [])) else (s, Install(Enter, old_, k, got))
    case Publish =>
      (s.(refs := s.refs + [1], cleaned := s.cleaned + [0], outside := s.outside + [0], current := |s.refs|),
       Install(LockTls, s.current, 0, []))
    case LockTls =>
      if s.tls < 0 then (s.(tls := i), Install(Scrape, old_, 0, [])) else (s, Install(LockTls, old_, k, got))
    case Scrape =>
      if k >= |s.slots| then (s.(tls := -1), Install(UnrefScraped, old_, k, got))
      else
        var got' := if s.slots[k].Cached? then got + [s.slots[k].sv] else got;
        (SetSlot(s, k, Obsolete), Install(Scrape, old_, k + 1, got'))
    case UnrefScraped =>
      if got == [] then (s, Install(UnrefOld, old_, k, got))
      else if Refs(s, got[0]) <= 1 then (s, Broken)
      else (AddRef(s, got[0], -1), Install(UnrefScraped, old_, k, got[1..]))
    case UnrefOld =>
      if Refs(s, old_) <= 0 then (s, Broken)
      else (AddRef(s, old_, -1), Install(if Refs(s, old_) == 1 then CleanOld else Finish, old_, k, got))
    case CleanOld => if Refs(s, old_) != 0 then (s, Broken) else (AddClean(s, old_), Install(Finish, old_, k, got))
    case Finish => (s.(db := -1), Idle)
  }

  // -- who accounts for which reference ---------------------------------------------------------

  function Count(p: seq<nat>, v: nat): nat {
    if p == [] then 0 else (if p[0] == v then 1 else 0) + Count(p[1..], v)
  }

  function One(b: bool): int { if b then 1 else 0 }

  // References to v held by a thread in the middle of an operation.
  function Own(pc: Pc, v: nat): int {
    match pc
    case Read(rs, w) =>
      if w != v then 0
      else if rs.Unlocking? || rs.Using? then 1
      else if rs.Referenced? || rs.Surplus? then 2 else 0
    case Leave(ls, w) => One(w == v && ls.Unref?)
    case Exit(es, w) => One(w == v && es.DropSlot?)
    case Install(is_, old_, k, got) =>
      One(old_ == v && (is_.LockTls? || is_.Scrape? || is_.UnrefScraped? || is_.UnrefOld?))
      + (if is_.Scrape? || is_.UnrefScraped? then Count(got, v) else 0)
    case _ => 0
  }

  // The duty to run Cleanup on v.
  function Duty(pc: Pc, v: nat): int {
    match pc
    case Leave(ls, w) => One(w == v && !ls.Unref?)
    case Install(is_, old_, k, got) => One(old_ == v && is_.CleanOld?)
    case _ => 0
  }

  function InSlot(x: Slot, v: nat): int { One(x == Cached(v)) }

  predicate HoldsDb(pc: Pc) {
    match pc
    case Read(rs, _) => rs.Locked? || rs.Unlocking?
    case Leave(ls, _) => ls.Cleanup?
    case Install(is_, _, _, _) => !is_.Enter?
    case _ => false
  }

  predicate HoldsTls(pc: Pc) {
    pc.Exit? || (pc.Install? && pc.is_.Scrape?)
  }

  // Between the swap that takes the slot and the compare-and-swap that returns it.
  predicate Reading(pc: Pc) {
    pc.Read? && !pc.rs.Surplus?
  }
}
