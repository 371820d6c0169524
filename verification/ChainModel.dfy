// Chains of AutoHyperClockTable: array indices linked by decorated pointers
// (NextWithShift), the table snapshot that every thread sees, and what holds of
// it while SplitForGrow splits one chain into two.
module ChainModel {
  import opened Probing

  // -- decorated pointers --------------------------------------------------------

  datatype Link = Link(next: nat, shift: nat, end: bool, locked: bool)

  function Make(next: nat, shift: nat): Link { Link(next, shift, false, false) }

  // An end marker points back to the head of its chain and counts as locked, so
  // that trying to lock an empty chain has no effect.
  function MakeEnd(next: nat, shift: nat): Link { Link(next, shift, true, true) }

  predicate LockedNotEnd(l: Link) { l.locked && !l.end }

  // The pointer without the rewrite lock; an end marker keeps its flag.
  function Plain(l: Link): Link { if l.end then l else l.(locked := false) }

  // -- the table -------------------------------------------------------------------

  // Free: not linked anywhere. Live: shareable. Dying: under (de)construction
  // but possibly still linked.
  datatype Phase = Free | Live | Dying

  datatype Table = Table(heads: seq<Link>, nexts: seq<Link>, hash: seq<nat>, phase: seq<Phase>) {
    predicate Valid() {
      |heads| == |nexts| == |hash| == |phase|
    }
    function Size(): nat { |nexts| }
  }

  predicate Distinct(p: seq<nat>) {
    forall i, j :: 0 <= i < j < |p| ==> p[i] != p[j]
  }

  predicate Suffix(p: seq<nat>, q: seq<nat>) {
    |p| <= |q| && q[|q| - |p|..] == p
  }

  predicate InTable(t: Table, p: seq<nat>) {
    forall i :: 0 <= i < |p| ==> p[i] < |t.nexts|
  }

  // Following pointers from `from` visits exactly p, in order, and then meets
  // the end marker `last`.
  predicate Leads(t: Table, from: Link, p: seq<nat>, last: Link)
    decreases |p|
  {
    if p == [] then Plain(from) == last
    else !from.end && from.next == p[0] && p[0] < |t.nexts| && Leads(t, t.nexts[p[0]], p[1..], last)
  }

  // The pointer to position k of p, or `last` behind its end.
  function Ptr(p: seq<nat>, k: nat, shift: nat, last: Link): Link
    requires k <= |p|
  {
    if k < |p| then Make(p[k], shift) else last
  }

  // The entries p are linked with pointers of one shift: a (possibly locked)
  // head leads to the first, and `last` follows the final one.
  predicate Linked(t: Table, head: Link, shift: nat, p: seq<nat>, last: Link) {
    && InTable(t, p)
    && Plain(head) == Ptr(p, 0, shift, last)
    && forall i :: 0 <= i < |p| ==> t.nexts[p[i]] == Ptr(p, i + 1, shift, last)
  }

  // A finished chain: all pointers carry `shift`, the end marker names home.
  predicate IsChain(t: Table, home: nat, shift: nat, p: seq<nat>) {
    && home < |t.heads|
    && Linked(t, t.heads[home], shift, p, MakeEnd(home, shift))
  }

  // A step of another thread while a chain is rewritten: DoInsert's final CAS, or
  // an entry turning from shareable to under construction. Neither needs the
  // rewrite lock.
  datatype Action = Insert(slot: nat, hash: nat) | Retire(slot: nat)

  // -- one split ---------------------------------------------------------------------

  // Splitting the chain of oldHome at shift `shift`: entries whose next hash bit
  // is set move to growHome = oldHome + 2^shift.
  datatype Job = Job(oldHome: nat, growHome: nat, shift: nat) {
    function Home(bit: bool): nat { if bit then growHome else oldHome }

    predicate Ok(n: nat) {
      oldHome < n && growHome < n && growHome == oldHome + Pow2(shift) && oldHome < Pow2(shift)
    }
  }

  // BottomNBits(hash, shift) == home
  predicate OnChain(home: nat, shift: nat, hash: nat) {
    hash % Pow2(shift) == home
  }

  // Every entry of p has its hash on that chain.
  predicate Belong(t: Table, home: nat, shift: nat, p: seq<nat>) {
    forall i :: 0 <= i < |p| ==> p[i] < |t.hash| && OnChain(home, shift, t.hash[p[i]])
  }

  // The hash bit that decides between the two chains.
  predicate BitOf(job: Job, hash: nat) {
    (hash / Pow2(job.shift)) % 2 == 1
  }

  // The first position at or after k whose entry goes to chain `bit`.
  function NextOf(bits: seq<bool>, bit: bool, k: nat): (r: nat)
    requires k <= |bits|
    ensures k <= r <= |bits|
    ensures r < |bits| ==> bits[r] == bit
    ensures forall j :: k <= j < r ==> bits[j] != bit
    decreases |bits| - k
  {
    if k == |bits| then k else if bits[k] == bit then k else NextOf(bits, bit, k + 1)
  }

  // A migrated pointer of chain `bit` to position k of the original chain, or
  // its end marker.
  function NewLink(job: Job, c: seq<nat>, bit: bool, k: nat): Link
    requires k <= |c|
  {
    Ptr(c, k, job.shift + 1, MakeEnd(job.Home(bit), job.shift + 1))
  }

  // An original pointer to position k.
  function OldLink(job: Job, c: seq<nat>, k: nat): Link
    requires k <= |c|
  {
    Ptr(c, k, job.shift, MakeEnd(job.oldHome, job.shift))
  }

  // The state of a split, as seen by its author: before the big step, the old
  // chain; after it, the original chain c with the bit of each entry, the
  // position of each frontier (the last migrated entry of each output chain, or
  // |c| when that chain is finished), and the entries inserted since at either
  // head.
  datatype View =
    | Before(c: seq<nat>)
    | After(c: seq<nat>, bits: seq<bool>, zero: nat, one: nat, ins0: seq<nat>, ins1: seq<nat>)
  {
    function Frontier(bit: bool): nat
      requires After?
    { if bit then one else zero }

    function Ins(bit: bool): seq<nat>
      requires After?
    { if bit then ins1 else ins0 }

    function Members(): seq<nat> {
      if Before? then c else c + ins0 + ins1
    }
  }

  predicate MembersOk(t: Table, v: View) {
    && InTable(t, v.Members())
    && Distinct(v.Members())
    && forall i :: 0 <= i < |v.Members()| ==> v.Members()[i] < |t.phase| && !t.phase[v.Members()[i]].Free?
  }

  // Before the big step: one chain with old pointers only.
  predicate BeforeOk(job: Job, t: Table, c: seq<nat>) {
    && IsChain(t, job.oldHome, job.shift, c)
    && Belong(t, job.oldHome, job.shift, c)
  }

  // The pointer stored in the entry at position k: migrated if k is before the
  // frontier of its chain, original otherwise.
  predicate PointerOk(job: Job, t: Table, v: View, k: nat)
    requires v.After? && k < |v.c| == |v.bits| && v.c[k] < |t.nexts|
  {
    t.nexts[v.c[k]] ==
      if k < v.Frontier(v.bits[k])
      then NewLink(job, v.c, v.bits[k], NextOf(v.bits, v.bits[k], k + 1))
      else OldLink(job, v.c, k + 1)
  }

  // A frontier is an entry of its own chain, or the chain is finished; entries
  // between the two frontiers belong to the chain of the earlier one.
  predicate FrontiersOk(v: View)
    requires v.After? && |v.c| == |v.bits|
  {
    && (v.zero < |v.c| ==> !v.bits[v.zero])
    && (v.one < |v.c| ==> v.bits[v.one])
    && v.zero <= |v.c| && v.one <= |v.c|
    && (forall k :: v.zero < k < v.one ==> !v.bits[k])
    && (forall k :: v.one < k < v.zero ==> v.bits[k])
  }

  // Head of chain `bit`: the entries inserted since the big step, all with new
  // pointers, and then the first original entry of the chain.
  predicate HeadOk(job: Job, t: Table, v: View, bit: bool)
    requires v.After? && |v.c| == |v.bits|
  {
    && job.Home(bit) < |t.heads|
    && Linked(t, t.heads[job.Home(bit)], job.shift + 1, v.Ins(bit), NewLink(job, v.c, bit, NextOf(v.bits, bit, 0)))
    && Belong(t, job.Home(bit), job.shift + 1, v.Ins(bit))
  }

  predicate PointersOk(job: Job, t: Table, v: View)
    requires v.After?
  {
    && |v.c| == |v.bits|
    && InTable(t, v.c)
    && FrontiersOk(v)
    && forall k :: 0 <= k < |v.c| ==> PointerOk(job, t, v, k)
  }

  predicate BitsOk(job: Job, t: Table, v: View)
    requires v.After?
  {
    && |v.c| == |v.bits|
    && Belong(t, job.oldHome, job.shift, v.c)
    && forall k :: 0 <= k < |v.c| ==> v.c[k] < |t.hash| && v.bits[k] == BitOf(job, t.hash[v.c[k]])
  }

  predicate AfterOk(job: Job, t: Table, v: View)
    requires v.After?
  {
    PointersOk(job, t, v) && BitsOk(job, t, v) && HeadOk(job, t, v, false) && HeadOk(job, t, v, true)
  }

  predicate Describes(job: Job, t: Table, v: View) {
    && t.Valid() && job.Ok(t.Size())
    && MembersOk(t, v)
    && if v.Before? then BeforeOk(job, t, v.c) else AfterOk(job, t, v)
  }

  // -- what walking a described table visits -----------------------------------------------

  // What the pointers of chain `bit` visit from position k on: its own entries
  // up to the frontier, and then everything behind the frontier.
  function WalkFrom(v: View, bit: bool, k: nat): seq<nat>
    requires v.After? && |v.c| == |v.bits| && k <= v.Frontier(bit) <= |v.c|
    decreases v.Frontier(bit) - k
  {
    if k == v.Frontier(bit) then v.c[k..]
    else (if v.bits[k] == bit then [v.c[k]] else []) + WalkFrom(v, bit, k + 1)
  }

  // The end marker that such a walk meets.
  function LastMarker(job: Job, v: View, bit: bool): Link
    requires v.After?
  {
    if v.Frontier(bit) == |v.c| then MakeEnd(job.Home(bit), job.shift + 1) else MakeEnd(job.oldHome, job.shift)
  }
}
