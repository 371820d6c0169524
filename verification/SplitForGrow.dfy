// SplitForGrow on the arrays of AutoHyperClockTable: one thread rewrites a chain
// pointer by pointer while other threads keep inserting at the heads and retiring
// entries. What the others do is the input `schedule`, consumed batch by batch
// before every access, so that a theorem about every schedule is a theorem about
// every interleaving.
module SplitForGrow {
  import opened Probing
  import opened ChainModel
  import opened ChainSplit
  import LinearHashing

  // One state of the table and what the splitting thread knows about it.
  datatype Moment = Moment(t: Table, v: View)

  // How a view may change over time: entries are only added, at heads; frontiers
  // only advance.
  predicate Later(v: View, w: View) {
    if v.Before? then Suffix(v.c, w.c)
    else
      && w.After? && w.c == v.c && w.bits == v.bits && v.zero <= w.zero && v.one <= w.one
      && Suffix(v.ins0, w.ins0) && Suffix(v.ins1, w.ins1)
  }

  // What others can do to it.
  predicate Unmoved(v: View, w: View) {
    Later(v, w) && v.Before? == w.Before? && (v.After? ==> v.zero == w.zero && v.one == w.one)
  }

  lemma LaterTrans(u: View, v: View, w: View)
    requires Later(u, v) && Later(v, w)
    ensures Later(u, w)
  {
  }

  // Occupied slots stay occupied by the same entry.
  predicate Keeps(t: Table, t': Table) {
    && |t'.phase| == |t.phase| && |t'.hash| == |t.hash| == |t.phase| && |t'.nexts| == |t.nexts|
    && |t'.heads| == |t.heads|
    && forall x :: 0 <= x < |t.phase| && !t.phase[x].Free? ==> !t'.phase[x].Free? && t'.hash[x] == t.hash[x]
  }

  // Rewrite locks stay as they are, and before the big step nobody uses the new
  // head.
  predicate HeadsKept(job: Job, t: Table, t': Table, before: bool) {
    && job.oldHome < |t.heads| == |t'.heads| && job.growHome < |t.heads|
    && LockedNotEnd(t'.heads[job.oldHome]) == LockedNotEnd(t.heads[job.oldHome])
    && LockedNotEnd(t'.heads[job.growHome]) == LockedNotEnd(t.heads[job.growHome])
    && (before ==> t'.heads[job.growHome] == t.heads[job.growHome])
  }

  // All that others can change.
  predicate Tolerable(job: Job, m: Moment, m': Moment) {
    Unmoved(m.v, m'.v) && Keeps(m.t, m'.t) && HeadsKept(job, m.t, m'.t, m.v.Before?)
  }

  lemma TolerableHere(job: Job, m: Moment, m': Moment)
    requires Tolerable(job, m, m')
    ensures Later(m.v, m'.v) && HeadsKept(job, m.t, m'.t, m.v.Before?)
  {
  }

  lemma TolerableTrans(job: Job, m: Moment, m': Moment, m'': Moment)
    requires Tolerable(job, m, m') && Tolerable(job, m', m'')
    ensures Tolerable(job, m, m'')
  {
    hide Keeps;
    KeepsTrans(m.t, m'.t, m''.t);
  }

  // Every recorded state is a described one, and later than those before it.
  predicate History(job: Job, log: seq<Moment>) {
    && (forall i :: 0 <= i < |log| ==> Describes(job, log[i].t, log[i].v))
    && (forall i, j :: 0 <= i < j < |log| ==> Later(log[i].v, log[j].v) && Keeps(log[i].t, log[j].t))
  }

  lemma HistoryPush(job: Job, log: seq<Moment>, m: Moment)
    requires History(job, log) && log != [] && Describes(job, m.t, m.v)
    requires Later(log[|log| - 1].v, m.v) && Keeps(log[|log| - 1].t, m.t)
    ensures History(job, log + [m])
  {
    hide Describes, Later, Keeps;
    var log' := log + [m];
    forall i | 0 <= i < |log| ensures Later(log'[i].v, m.v) && Keeps(log'[i].t, m.t) {
      if i < |log| - 1 {
        LaterTrans(log[i].v, log[|log| - 1].v, m.v);
        KeepsTrans(log[i].t, log[|log| - 1].t, m.t);
      }
    }
  }

  lemma KeepsTrans(t: Table, t': Table, t'': Table)
    requires Keeps(t, t') && Keeps(t', t'')
    ensures Keeps(t, t'')
  {
  }

  // -- what others do -----------------------------------------------------------------------

  // The chain that an insertion of `hash` goes to, judging by the shift of the
  // old head; none if the hash belongs elsewhere.
  function TargetHome(job: Job, t: Table, hash: nat): (r: seq<nat>)
    requires job.oldHome < |t.heads|
  {
    if t.heads[job.oldHome].shift <= job.shift then
      if OnChain(job.oldHome, job.shift, hash) then [job.oldHome] else []
    else if OnChain(job.oldHome, job.shift + 1, hash) then [job.oldHome]
    else if OnChain(job.growHome, job.shift + 1, hash) then [job.growHome] else []
  }

  function Act(job: Job, t: Table, a: Action): Table
    requires t.Valid() && job.Ok(t.Size())
  {
    match a
    case Insert(x, hash) =>
      var home := TargetHome(job, t, hash);
      if x < t.Size() && t.phase[x].Free? && home != [] then InsertAt(t, home[0], x, hash) else t
    case Retire(x) =>
      if x < t.Size() && t.phase[x].Live? then t.(phase := t.phase[x := Dying]) else t
  }

  ghost function ActView(job: Job, t: Table, v: View, a: Action): View
    requires t.Valid() && job.Ok(t.Size())
  {
    if a.Retire? then v
    else
      var home := TargetHome(job, t, a.hash);
      if a.slot < t.Size() && t.phase[a.slot].Free? && home != []
      then (if v.Before? then Before([a.slot] + v.c) else PushIns(v, home[0] == job.growHome, a.slot))
      else v
  }

  lemma HeadsShift(job: Job, t: Table, v: View)
    requires Describes(job, t, v)
    ensures t.heads[job.oldHome].shift == if v.Before? then job.shift else job.shift + 1
    ensures v.After? ==> t.heads[job.growHome].shift == job.shift + 1
  {
    hide Pow2, PointersOk, MembersOk, NextOf, Linked, Belong;
    if v.Before? {
      HeadShift(t, t.heads[job.oldHome], job.shift, v.c, MakeEnd(job.oldHome, job.shift));
    } else {
      OneHeadShift(job, t, v, false);
      OneHeadShift(job, t, v, true);
    }
  }

  lemma OneHeadShift(job: Job, t: Table, v: View, bit: bool)
    requires v.After? && |v.c| == |v.bits| && HeadOk(job, t, v, bit)
    ensures t.heads[job.Home(bit)].shift == job.shift + 1
  {
    hide NextOf, Linked, Belong;
    HeadShift(t, t.heads[job.Home(bit)], job.shift + 1, v.Ins(bit), NewLink(job, v.c, bit, NextOf(v.bits, bit, 0)));
  }

  lemma RetireOk(job: Job, t: Table, v: View, x: nat)
    requires Describes(job, t, v) && x < t.Size()
    ensures Describes(job, t.(phase := t.phase[x := Dying]), v)
  {
    hide PointersOk, BitsOk, HeadOk, BeforeOk, MembersOk;
    var t' := t.(phase := t.phase[x := Dying]);
    RetireMembers(t, v, x);
    if v.Before? { BeforeFrame(job, t, v.c, t'); }
    else { AfterFrame(job, t, v, t'); }
  }

  lemma RetireMembers(t: Table, v: View, x: nat)
    requires MembersOk(t, v) && x < |t.phase|
    ensures MembersOk(t.(phase := t.phase[x := Dying]), v)
  {
  }

  // The description of the pointers does not depend on the phases.
  lemma BeforeFrame(job: Job, t: Table, c: seq<nat>, t': Table)
    requires BeforeOk(job, t, c) && t'.heads == t.heads && t'.nexts == t.nexts && t'.hash == t.hash
    ensures BeforeOk(job, t', c)
  {
    hide OnChain;
  }

  lemma AfterFrame(job: Job, t: Table, v: View, t': Table)
    requires v.After? && AfterOk(job, t, v) && t'.heads == t.heads && t'.nexts == t.nexts && t'.hash == t.hash
    ensures AfterOk(job, t', v)
  {
    hide OnChain, NextOf, BitOf, FrontiersOk, HeadOk;
    forall k | 0 <= k < |v.c| ensures PointerOk(job, t', v, k) { assert PointerOk(job, t, v, k); }
    HeadFrame(job, t, v, t', false);
    HeadFrame(job, t, v, t', true);
  }

  lemma HeadFrame(job: Job, t: Table, v: View, t': Table, bit: bool)
    requires v.After? && |v.c| == |v.bits| && HeadOk(job, t, v, bit)
    requires t'.heads == t.heads && t'.nexts == t.nexts && t'.hash == t.hash
    ensures HeadOk(job, t', v, bit)
  {
    hide OnChain, NextOf;
  }

  // Whatever another thread does, the split stays as described and no frontier
  // moves; the rewrite locks survive.
  lemma ActOk(job: Job, t: Table, v: View, a: Action)
    requires Describes(job, t, v)
    ensures var t', v' := Act(job, t, a), ActView(job, t, v, a);
      Describes(job, t', v') && Tolerable(job, Moment(t, v), Moment(t', v'))
  {
    hide Describes, OnChain, Pow2, NextOf;
    DescribesShape(job, t, v);
    HeadsShift(job, t, v);
    match a
    case Retire(x) => if x < t.Size() && t.phase[x].Live? { RetireOk(job, t, v, x); }
    case Insert(x, hash) =>
      var home := TargetHome(job, t, hash);
      if x < t.Size() && t.phase[x].Free? && home != [] {
        if v.Before? { InsertBefore(job, t, v.c, x, hash); }
        else { InsertAfter(job, t, v, home[0] == job.growHome, x, hash); }
      }
  }

  lemma DescribesShape(job: Job, t: Table, v: View)
    requires Describes(job, t, v)
    ensures t.Valid() && job.Ok(t.Size()) && job.oldHome != job.growHome
  {
  }

  // -- the splitting thread -----------------------------------------------------------------

  // Position k of a chain, or -1 (the code's SIZE_MAX) behind its end.
  function At(c: seq<nat>, k: nat): int {
    if k < |c| then c[k] else -1
  }

  // The next hash bit tells the two new homes apart.
  lemma HomeBit(job: Job, n: nat, hash: nat)
    requires job.Ok(n) && OnChain(job.oldHome, job.shift, hash)
    ensures (hash % Pow2(job.shift + 1) == job.oldHome) == !BitOf(job, hash)
    ensures (hash % Pow2(job.shift + 1) == job.growHome) == BitOf(job, hash)
  {
    LinearHashing.NextBit(hash, job.shift);
  }

  // The tail of a chain that was saved earlier is still linked as it was.
  lemma SavedPointer(job: Job, t: Table, c: seq<nat>, d: seq<nat>, k: nat)
    requires Describes(job, t, Before(c)) && Suffix(d, c) && k < |d|
    ensures d[k] < t.Size() && t.nexts[d[k]] == OldLink(job, d, k + 1)
    ensures !t.phase[d[k]].Free? && OnChain(job.oldHome, job.shift, t.hash[d[k]])
  {
    hide Pow2, OnChain;
    var n := |c| - |d|;
    assert d == c[n..];
    assert d[k] == c[n + k];
    assert Before(c).Members()[n + k] == d[k];
    assert k + 1 < |d| ==> d[k + 1] == c[n + k + 1];
  }

  // An unchanged head means that nothing was inserted.
  lemma SavedHead(job: Job, t: Table, c: seq<nat>, d: seq<nat>)
    requires Describes(job, t, Before(c)) && Suffix(d, c) && Plain(t.heads[job.oldHome]) == OldLink(job, d, 0)
    ensures c == d
  {
    hide Pow2, OnChain;
    assert Before(c).Members() == c;
    assert d != [] ==> d[0] == c[|c| - |d|];
  }

  // A tail of the old chain saved earlier, with its bits, is still there.
  predicate Saved(job: Job, m: Moment, d: seq<nat>, bits: seq<bool>) {
    && m.v.Before? && Suffix(d, m.v.c)
    && InTable(m.t, d) && m.t.Valid() && bits == BitsOf(job, m.t, d)
  }

  lemma StillSaved(job: Job, m: Moment, m': Moment, d: seq<nat>, bits: seq<bool>)
    requires Describes(job, m.t, m.v) && Saved(job, m, d, bits) && Tolerable(job, m, m')
    ensures Saved(job, m', d, bits)
  {
    hide OnChain, BitOf, Describes;
    forall k | 0 <= k < |d| ensures !m.t.phase[d[k]].Free? { SavedPointer(job, m.t, m.v.c, d, k); }
  }

  // Setting or clearing the lock flag of a head.
  lemma Relock(job: Job, t: Table, v: View, bit: bool, l: Link)
    requires Describes(job, t, v) && (v.Before? ==> !bit) && Plain(l) == Plain(t.heads[job.Home(bit)])
    ensures Describes(job, t.(heads := t.heads[job.Home(bit) := l]), v)
  {
    hide Pow2, OnChain, Belong, NextOf, PointersOk, HeadOk;
    var t' := t.(heads := t.heads[job.Home(bit) := l]);
    if v.After? {
      assert PointersOk(job, t', v) by { PointersFrame(job, t, v, t'); }
      RelockHead(job, t, v, bit, l, false);
      RelockHead(job, t, v, bit, l, true);
      assert BitsOk(job, t', v) by { BelongFrame(t, job.oldHome, job.shift, v.c, t'); }
    } else {
      BelongFrame(t, job.oldHome, job.shift, v.c, t');
    }
  }

  lemma PointersFrame(job: Job, t: Table, v: View, t': Table)
    requires v.After? && PointersOk(job, t, v) && t'.nexts == t.nexts
    ensures PointersOk(job, t', v)
  {
    hide NextOf, FrontiersOk;
    forall k | 0 <= k < |v.c| ensures PointerOk(job, t', v, k) { assert PointerOk(job, t, v, k); }
  }

  lemma BelongFrame(t: Table, home: nat, shift: nat, p: seq<nat>, t': Table)
    requires Belong(t, home, shift, p) && t'.hash == t.hash
    ensures Belong(t', home, shift, p)
  {
  }

  lemma RelockHead(job: Job, t: Table, v: View, bit: bool, l: Link, b: bool)
    requires v.After? && |v.c| == |v.bits| && t.Valid() && job.Ok(t.Size()) && HeadOk(job, t, v, b)
    requires Plain(l) == Plain(t.heads[job.Home(bit)])
    ensures HeadOk(job, t.(heads := t.heads[job.Home(bit) := l]), v, b)
  {
    hide Pow2, OnChain, NextOf;
    var t' := t.(heads := t.heads[job.Home(bit) := l]);
    assert Plain(t'.heads[job.Home(b)]) == Plain(t.heads[job.Home(b)]);
  }

  // What the pointer of the earlier frontier looks like.
  lemma EarlierFrontier(job: Job, t: Table, v: View, bit: bool)
    requires v.After? && Describes(job, t, v) && v.Frontier(bit) < v.Frontier(!bit)
    ensures var f, g := v.Frontier(bit), v.Frontier(!bit);
      && f < g <= |v.c| == |v.bits| && v.c[f] < t.Size() && t.nexts[v.c[f]] == OldLink(job, v.c, f + 1)
      && (f + 1 < g || g == |v.c| ==> NextOf(v.bits, bit, f + 1) == f + 1)
      && (f + 1 < |v.c| && g < |v.c| && v.c[f + 1] == v.c[g] ==> f + 1 == g)
  {
    hide Pow2, OnChain, BitOf, HeadOk, NextOf;
    var f, g := v.Frontier(bit), v.Frontier(!bit);
    assert PointerOk(job, t, v, f);
    OriginalDistinct(v);
    BetweenBits(v, bit);
  }

  lemma BetweenBits(v: View, bit: bool)
    requires v.After? && |v.c| == |v.bits| && FrontiersOk(v) && v.Frontier(bit) < v.Frontier(!bit)
    ensures var f, g := v.Frontier(bit), v.Frontier(!bit);
      f + 1 < g || g == |v.c| ==> NextOf(v.bits, bit, f + 1) == f + 1
  {
  }

  // What the scan ahead of both frontiers reads.
  lemma AheadPointer(job: Job, t: Table, v: View, k: nat)
    requires v.After? && Describes(job, t, v) && v.zero <= k && v.one <= k && k < |v.c|
    ensures v.c[k] < t.Size() && |v.bits| == |v.c| && t.nexts[v.c[k]] == OldLink(job, v.c, k + 1)
    ensures k + 1 < |v.c| ==>
      v.c[k + 1] < t.Size() && (t.hash[v.c[k + 1]] % Pow2(job.shift + 1) == job.oldHome) == !v.bits[k + 1]
  {
    hide Pow2, OnChain, BitOf, HeadOk, NextOf;
    assert PointerOk(job, t, v, k);
    if k + 1 < |v.c| { HomeBit(job, t.Size(), t.hash[v.c[k + 1]]); }
  }

  lemma NextOfIs(bits: seq<bool>, bit: bool, k: nat, n: nat)
    requires k <= n <= |bits| && (forall j :: k <= j < n ==> bits[j] != bit) && (n < |bits| ==> bits[n] == bit)
    ensures NextOf(bits, bit, k) == n
  {
  }

  // The frontiers are neighbours, the one of chain `bit` first, and the scan has
  // found no further entry of that chain up to position r.
  predicate Adjacent(v: View, bit: bool, r: nat, firstF: nat, otherF: nat, cur: nat) {
    && v.After? && |v.c| == |v.bits|
    && v.Frontier(bit) + 1 == v.Frontier(!bit) <= r < |v.c|
    && firstF == v.c[v.Frontier(bit)] && otherF == v.c[v.Frontier(!bit)] && cur == v.c[r]
    && forall j :: v.Frontier(!bit) <= j <= r ==> v.bits[j] != bit
  }

  lemma AdjacentHere(v: View, bit: bool, r: nat, firstF: nat, otherF: nat, cur: nat)
    requires Adjacent(v, bit, r, firstF, otherF, cur)
    ensures v.After? && v.zero <= r && v.one <= r && r < |v.c| == |v.bits| && cur == v.c[r]
  {
  }

  lemma AdjacentSame(v: View, w: View, bit: bool, r: nat, firstF: nat, otherF: nat, cur: nat)
    requires Adjacent(v, bit, r, firstF, otherF, cur)
    requires w.After? && w.c == v.c && w.bits == v.bits && w.zero == v.zero && w.one == v.one
    ensures Adjacent(w, bit, r, firstF, otherF, cur)
  {
  }

  lemma AdjacentStay(v: View, bit: bool, r: nat, firstF: nat, otherF: nat, cur: nat)
    requires Adjacent(v, bit, r, firstF, otherF, cur) && r + 1 < |v.c| && v.bits[r + 1] != bit
    ensures Adjacent(v, bit, r + 1, firstF, otherF, v.c[r + 1])
  {
  }

  lemma AdjacentSwap(v: View, w: View, bit: bool, r: nat, firstF: nat, otherF: nat, cur: nat)
    requires Adjacent(v, bit, r, firstF, otherF, cur) && r + 1 < |v.c| && v.bits[r + 1] == bit
    requires w.After? && w.c == v.c && w.bits == v.bits && w.Frontier(bit) == r + 1 && w.Frontier(!bit) == r
    ensures Adjacent(w, !bit, r + 1, v.c[r], v.c[r + 1], v.c[r + 1])
  {
  }

  // -- a finished split ------------------------------------------------------------------------

  predicate Finished(v: View) {
    v.After? && |v.bits| == |v.c| && v.zero == |v.c| && v.one == |v.c|
  }

  // The entries of output chain `bit`: those inserted since the big step, then
  // its share of the original chain in the original order.
  function Output(v: View, bit: bool): seq<nat>
    requires Finished(v)
  {
    v.Ins(bit) + WalkFrom(v, bit, 0)
  }

  lemma {:induction false} FilterLinked(job: Job, t: Table, v: View, bit: bool, k: nat)
    requires Finished(v) && PointersOk(job, t, v) && k <= |v.c|
    ensures Linked(t, NewLink(job, v.c, bit, NextOf(v.bits, bit, k)), job.shift + 1, WalkFrom(v, bit, k),
                   MakeEnd(job.Home(bit), job.shift + 1))
    decreases |v.c| - k
  {
    hide Linked, PointersOk;
    if k == |v.c| {
      assert WalkFrom(v, bit, k) == [];
      NothingLinked(t, MakeEnd(job.Home(bit), job.shift + 1), job.shift + 1);
    } else {
      FilterLinked(job, t, v, bit, k + 1);
      if v.bits[k] == bit {
        FinishedPointer(job, t, v, k);
        LinkedCons(t, v.c[k], job.shift + 1, WalkFrom(v, bit, k + 1), MakeEnd(job.Home(bit), job.shift + 1));
      } else {
        assert [] + WalkFrom(v, bit, k + 1) == WalkFrom(v, bit, k + 1);
      }
    }
  }

  lemma NothingLinked(t: Table, last: Link, shift: nat)
    requires Plain(last) == last
    ensures Linked(t, last, shift, [], last)
  {
  }

  lemma FinishedPointer(job: Job, t: Table, v: View, k: nat)
    requires Finished(v) && PointersOk(job, t, v) && k < |v.c|
    ensures v.c[k] < |t.nexts| && t.nexts[v.c[k]] == NewLink(job, v.c, v.bits[k], NextOf(v.bits, v.bits[k], k + 1))
  {
    assert PointerOk(job, t, v, k);
  }

  lemma LinkedCons(t: Table, x: nat, shift: nat, q: seq<nat>, last: Link)
    requires x < |t.nexts| && Linked(t, t.nexts[x], shift, q, last) && Plain(t.nexts[x]) == t.nexts[x]
    ensures Linked(t, Make(x, shift), shift, [x] + q, last)
  {
    var p := [x] + q;
    forall i | 0 <= i < |p| ensures p[i] < |t.nexts| && t.nexts[p[i]] == Ptr(p, i + 1, shift, last) {
      if i > 0 { assert p[i] == q[i - 1]; }
    }
  }

  lemma {:induction false} LinkedAppend(t: Table, head: Link, shift: nat, p: seq<nat>, mid: Link, q: seq<nat>,
                                        last: Link)
    requires Linked(t, head, shift, p, mid) && Linked(t, mid, shift, q, last) && Plain(mid) == mid
    ensures Linked(t, head, shift, p + q, last)
  {
    var r := p + q;
    forall i | 0 <= i < |r| ensures r[i] < |t.nexts| && t.nexts[r[i]] == Ptr(r, i + 1, shift, last) {
      if i >= |p| { assert r[i] == q[i - |p|]; }
    }
  }

  lemma {:induction false} FilterBelongs(job: Job, t: Table, v: View, bit: bool, k: nat)
    requires Finished(v) && BitsOk(job, t, v) && job.Ok(t.Size()) && k <= |v.c|
    ensures Belong(t, job.Home(bit), job.shift + 1, WalkFrom(v, bit, k))
    decreases |v.c| - k
  {
    hide BitOf, Pow2;
    if k < |v.c| {
      FilterBelongs(job, t, v, bit, k + 1);
      if v.bits[k] == bit {
        HomeBit(job, t.Size(), t.hash[v.c[k]]);
      } else {
        assert [] + WalkFrom(v, bit, k + 1) == WalkFrom(v, bit, k + 1);
      }
    }
  }

  lemma BelongAppend(t: Table, home: nat, shift: nat, p: seq<nat>, q: seq<nat>)
    requires Belong(t, home, shift, p) && Belong(t, home, shift, q)
    ensures Belong(t, home, shift, p + q)
  {
    hide OnChain;
  }

  // When both frontiers are past the end there are two proper chains with new
  // pointers only, and every entry is in the chain of its hash.
  lemma FinishedSplit(job: Job, t: Table, v: View, bit: bool)
    requires Describes(job, t, v) && Finished(v)
    ensures IsChain(t, job.Home(bit), job.shift + 1, Output(v, bit))
    ensures Belong(t, job.Home(bit), job.shift + 1, Output(v, bit))
  {
    hide Pow2, OnChain, BitOf, Linked, Belong, PointersOk, BitsOk, NextOf, WalkFrom, MembersOk;
    FilterLinked(job, t, v, bit, 0);
    FilterBelongs(job, t, v, bit, 0);
    assert HeadOk(job, t, v, bit);
    LinkedAppend(t, t.heads[job.Home(bit)], job.shift + 1, v.Ins(bit), NewLink(job, v.c, bit, NextOf(v.bits, bit, 0)),
                 WalkFrom(v, bit, 0), MakeEnd(job.Home(bit), job.shift + 1));
    BelongAppend(t, job.Home(bit), job.shift + 1, v.Ins(bit), WalkFrom(v, bit, 0));
  }

  lemma JustSaved(job: Job, m: Moment)
    requires Describes(job, m.t, m.v) && m.v.Before?
    ensures InTable(m.t, m.v.c) && m.t.Valid() && Saved(job, m, m.v.c, BitsOf(job, m.t, m.v.c))
  {
  }

  lemma BitsHash(job: Job, t: Table, t': Table, d: seq<nat>)
    requires t.Valid() && t'.Valid() && InTable(t, d) && t'.hash == t.hash
    ensures InTable(t', d) && BitsOf(job, t', d) == BitsOf(job, t, d)
  {
    hide BitOf;
  }

  class Splitter {
    const job: Job
    const heads: array<Link>
    const nexts: array<Link>
    const hash: array<nat>
    const phase: array<Phase>
    var schedule: seq<seq<Action>>
    ghost var log: seq<Moment>

    constructor (job: Job, heads: array<Link>, nexts: array<Link>, hash: array<nat>, phase: array<Phase>,
                 schedule: seq<seq<Action>>, ghost c: seq<nat>)
      requires heads != nexts
      requires Describes(job, Table(heads[..], nexts[..], hash[..], phase[..]), Before(c))
      ensures this.job == job && this.heads == heads && this.nexts == nexts && this.hash == hash && this.phase == phase
      ensures Valid() && log == [Moment(Now(), Before(c))] && this.schedule == schedule
    {
      this.job, this.heads, this.nexts, this.hash, this.phase := job, heads, nexts, hash, phase;
      this.schedule := schedule;
      log := [Moment(Table(heads[..], nexts[..], hash[..], phase[..]), Before(c))];
    }

    function Now(): Table
      reads heads, nexts, hash, phase
    {
      Table(heads[..], nexts[..], hash[..], phase[..])
    }

    ghost function View(): View
      requires log != []
      reads this
    {
      log[|log| - 1].v
    }

    ghost function Last(): Moment
      requires log != []
      reads this
    {
      log[|log| - 1]
    }

    ghost predicate Valid()
      reads this, heads, nexts, hash, phase
    {
      && heads != nexts
      && log != [] && log[|log| - 1].t == Now()
      && History(job, log)
    }

    // What another thread may have done since.
    twostate predicate Interfered()
      reads this, heads, nexts, hash, phase
    {
      && old(Valid()) && Valid()
      && old(log) <= log
      && Tolerable(job, old(Last()), Last())
      && (old(schedule) == [] ==> schedule == [] && Now() == old(Now()))
      && |schedule| <= old(|schedule|)
    }

    // One step of another thread.
    method Perform(a: Action)
      requires Valid()
      modifies heads, nexts, hash, phase, `log
      ensures Valid() && old(log) <= log && Now() == Act(job, old(Now()), a)
      ensures Tolerable(job, old(Last()), Last())
    {
      hide Describes, Later, Keeps, HeadsKept, History, OnChain, Pow2;
      ghost var t, v := Now(), View();
      DescribedNow();
      DescribesShape(job, t, v);
      ActOk(job, t, v, a);
      match a {
        case Insert(x, h) =>
          var home := TargetHome(job, Now(), h);
          if x < nexts.Length && phase[x].Free? && home != [] {
            var head := heads[home[0]];
            hash[x], phase[x], nexts[x] := h, Live, Plain(head);
            heads[home[0]] := Make(x, head.shift).(locked := LockedNotEnd(head));
          }
        case Retire(x) =>
          if x < nexts.Length && phase[x].Live? { phase[x] := Dying; }
      }
      assert Now() == Act(job, t, a);
      Record(ActView(job, t, v, a), t);
    }

    // Everything that happens before the next access.
    method Interfere()
      requires Valid()
      modifies heads, nexts, hash, phase, `log, `schedule
      ensures Interfered()
      ensures old(schedule) != [] ==> |schedule| < old(|schedule|)
    {
      hide Tolerable, History, Act, Now;
      SameNow();
      if schedule == [] { return; }
      var batch := schedule[0];
      schedule := schedule[1..];
      for i := 0 to |batch|
        invariant Valid() && old(log) <= log && |schedule| < old(|schedule|)
        invariant Tolerable(job, old(Last()), Last())
      {
        ghost var m := Last();
        Perform(batch[i]);
        TolerableTrans(job, old(Last()), m, Last());
      }
    }

    lemma SameNow()
      requires Valid()
      ensures Describes(job, Now(), View()) && Tolerable(job, Last(), Last())
    {
      DescribedNow();
      DescribesShape(job, Now(), View());
    }

    lemma AheadNow(k: nat)
      requires Valid() && View().After? && View().zero <= k && View().one <= k && k < |View().c|
      ensures View().c[k] < nexts.Length && |View().bits| == |View().c|
      ensures nexts[View().c[k]] == OldLink(job, View().c, k + 1)
      ensures k + 1 < |View().c| ==>
        && View().c[k + 1] < hash.Length
        && (hash[View().c[k + 1]] % Pow2(job.shift + 1) == job.oldHome) == !View().bits[k + 1]
    {
      hide Describes, Pow2;
      DescribedNow();
      DescribesShape(job, Now(), View());
      AheadPointer(job, Now(), View(), k);
    }

    lemma DescribedNow()
      requires Valid()
      ensures Describes(job, Now(), View())
    {
    }

    // Append the present state to the log.
    ghost method Record(v: View, was: Table)
      requires heads != nexts && log != [] && History(job, log) && log[|log| - 1].t == was
      requires Describes(job, Now(), v) && Later(View(), v) && Keeps(was, Now())
      modifies `log
      ensures Valid() && log == old(log) + [Moment(Now(), v)]
    {
      hide Describes, Later, Keeps, History;
      HistoryPush(job, log, Moment(Now(), v));
      log := log + [Moment(Now(), v)];
    }

    method StoreHead(home: nat, l: Link, ghost v: View)
      requires Valid() && home < heads.Length
      requires Describes(job, Now().(heads := Now().heads[home := l]), v) && Later(View(), v)
      modifies heads, `log
      ensures Valid() && Now() == old(Now()).(heads := old(Now()).heads[home := l])
      ensures log == old(log) + [Moment(Now(), v)]
    {
      hide Describes, Later, History;
      ghost var t := Now();
      SameNow();
      heads[home] := l;
      assert Now() == t.(heads := t.heads[home := l]);
      Record(v, t);
    }

    method StoreNext(x: nat, l: Link, ghost v: View)
      requires Valid() && x < nexts.Length
      requires Describes(job, Now().(nexts := Now().nexts[x := l]), v) && Later(View(), v)
      modifies nexts, `log
      ensures Valid() && Now() == old(Now()).(nexts := old(Now()).nexts[x := l])
      ensures log == old(log) + [Moment(Now(), v)]
    {
      hide Describes, Later, History;
      ghost var t := Now();
      SameNow();
      nexts[x] := l;
      assert Now() == t.(nexts := t.nexts[x := l]);
      Record(v, t);
    }

    // ChainRewriteLock::Acquire on the old home, when no other thread holds it.
    method Acquire() returns (saved: Link)
      requires Valid() && View().Before? && job.oldHome < heads.Length && !LockedNotEnd(heads[job.oldHome])
      modifies heads, nexts, hash, phase, `log, `schedule
      ensures Valid() && old(log) <= log && View().Before? && |schedule| <= old(|schedule|)
      ensures Later(old(View()), View())
      ensures job.oldHome < heads.Length && saved == heads[job.oldHome] && saved.locked
      ensures Plain(saved) == OldLink(job, View().c, 0)
    {
      hide Describes, Later, History;
      Interfere();
      SameNow();
      saved := heads[job.oldHome].(locked := true);
      HeadLink(job, Now(), View().c);
      Relock(job, Now(), View(), false, saved);
      StoreHead(job.oldHome, saved, View());
    }

    // The scan for a first entry of each output chain, starting from the saved
    // head, while others insert in front of it.
    method FindRepresentatives(saved: Link, ghost d: seq<nat>, ghost bits: seq<bool>)
      returns (zeroF: int, oneF: int, cur: int, first: int)
      requires Valid() && Saved(job, Last(), d, bits) && |bits| == |d|
      requires Plain(saved) == OldLink(job, d, 0)
      modifies heads, nexts, hash, phase, `log, `schedule
      ensures Interfered() && Saved(job, Last(), d, bits)
      ensures zeroF == At(d, NextOf(bits, false, 0)) && oneF == At(d, NextOf(bits, true, 0))
      ensures var zero, one := NextOf(bits, false, 0), NextOf(bits, true, 0);
        cur == At(d, if zero < one then one else zero)
      ensures first == if d == [] then -1 else if bits[0] then 1 else 0
    {
      hide Describes, Tolerable, History, Pow2, NextOf, Now, Saved;
      SameNow();
      zeroF, oneF, cur, first := -1, -1, -1, -1;
      var l := saved;
      ghost var k := 0;
      ghost var z, o := NextOf(bits, false, 0), NextOf(bits, true, 0);
      while true
        invariant Interfered() && Saved(job, Last(), d, bits)
        invariant k <= |d| && Plain(l) == OldLink(job, d, k)
        invariant zeroF == (if z < k then d[z] else -1) && oneF == (if o < k then d[o] else -1)
        invariant z >= k || o >= k
        invariant first == if k == 0 then -1 else if bits[0] then 1 else 0
        decreases |d| - k
      {
        if l.end {
          cur := -1;
          break;
        }
        cur := l.next;
        Entry(d, bits, k);
        if hash[cur] % Pow2(job.shift + 1) == job.oldHome {
          if zeroF < 0 {
            zeroF := cur;
            if oneF >= 0 { break; }
            first := 0;
          }
        } else {
          if oneF < 0 {
            oneF := cur;
            if zeroF >= 0 { break; }
            first := 1;
          }
        }
        ghost var m := Last();
        DescribedNow();
        Interfere();
        StillSaved(job, m, Last(), d, bits);
        TolerableTrans(job, old(Last()), m, Last());
        Entry(d, bits, k);
        l := nexts[cur];
        k := k + 1;
      }
    }

    // The entry at position k of a saved tail.
    lemma Entry(d: seq<nat>, bits: seq<bool>, k: nat)
      requires Valid() && Saved(job, Last(), d, bits) && k < |d| == |bits|
      ensures d[k] < nexts.Length == hash.Length && nexts[d[k]] == OldLink(job, d, k + 1)
      ensures (hash[d[k]] % Pow2(job.shift + 1) == job.oldHome) == !bits[k]
    {
      hide OnChain, BitOf, Pow2, Describes, History;
      DescribedNow();
      DescribesShape(job, Now(), View());
      SavedPointer(job, Now(), View().c, d, k);
      HomeBit(job, Now().Size(), Now().hash[d[k]]);
    }

    // The new head is stored first; then the CAS on the old head is due.
    method PublishOne(l: Link, ghost d: seq<nat>, ghost bits: seq<bool>)
      requires Valid() && Saved(job, Last(), d, bits)
      modifies heads, nexts, hash, phase, `log, `schedule
      ensures Valid() && old(log) <= log && Later(old(View()), View()) && Saved(job, Last(), d, bits)
      ensures job.growHome < heads.Length && heads[job.growHome] == l
      ensures job.oldHome < heads.Length && LockedNotEnd(heads[job.oldHome]) == old(LockedNotEnd(heads[job.oldHome]))
      ensures old(schedule) == [] ==> heads[job.oldHome] == old(heads[job.oldHome]) && schedule == []
      ensures old(schedule) != [] ==> |schedule| < old(|schedule|)
    {
      hide Describes, Later, Keeps, History, BitsOf;
      ghost var m := Last();
      SameNow();
      Interfere();
      StillSaved(job, m, Last(), d, bits);
      SameNow();
      DescribesShape(job, Now(), View());
      StoreGrowHead(job, Now(), View().c, l);
      ghost var t := Now();
      StoreHead(job.growHome, l, View());
      m := Last();
      SameNow();
      BitsHash(job, t, Now(), d);
      assert LockedNotEnd(Now().heads[job.oldHome]) == old(LockedNotEnd(heads[job.oldHome]));
      Interfere();
      StillSaved(job, m, Last(), d, bits);
      LaterTrans(old(View()), m.v, View());
    }

    // The successful CAS on the old head.
    method SwingZero(l: Link, ghost d: seq<nat>, ghost bits: seq<bool>)
      requires Valid() && Saved(job, Last(), d, bits) && job.oldHome < heads.Length && job.growHome < heads.Length
      requires |bits| == |d|
      requires Plain(heads[job.oldHome]) == OldLink(job, d, 0)
      requires Plain(heads[job.growHome]) == NewLink(job, d, true, NextOf(bits, true, 0))
      requires Plain(l) == NewLink(job, d, false, NextOf(bits, false, 0))
      modifies heads, `log
      ensures Valid() && heads[..] == old(heads[..])[job.oldHome := l] && Later(old(View()), View())
      ensures log == old(log) + [Moment(Now(), After(d, bits, NextOf(bits, false, 0), NextOf(bits, true, 0), [], []))]
    {
      hide Describes, History, OnChain, BitOf, Pow2, BitsOf, NextOf;
      DescribedNow();
      SavedHead(job, Now(), View().c, d);
      BigStep(job, Now(), d, l);
      StoreHead(job.oldHome, l, BigStepView(job, Now(), d));
    }

    // Right after the big step: each frontier is the first entry of its chain.
    ghost predicate HeadsMigrated(zeroF: int, oneF: int, cur: int, first: int)
      requires log != []
      reads this, heads, nexts, hash, phase
    {
      && View().After? && |View().bits| == |View().c|
      && View().zero == NextOf(View().bits, false, 0) && View().one == NextOf(View().bits, true, 0)
      && zeroF == At(View().c, View().zero) && oneF == At(View().c, View().one)
      && cur == At(View().c, if View().zero < View().one then View().one else View().zero)
      && first == (if View().c == [] then -1 else if View().bits[0] then 1 else 0)
      && HeadLocks(job, Now()) == (zeroF >= 0, oneF >= 0)
    }

    // One attempt at it, which fails if an insertion gets in between.
    method TryMigrateHeads(saved: Link) returns (ok: bool, zeroF: int, oneF: int, cur: int, first: int)
      requires Valid() && View().Before? && job.oldHome < heads.Length && heads[job.oldHome] == saved && saved.locked
      requires Plain(saved) == OldLink(job, View().c, 0)
      modifies heads, nexts, hash, phase, `log, `schedule
      ensures Valid() && old(log) <= log && Later(old(View()), View())
      ensures ok ==> HeadsMigrated(zeroF, oneF, cur, first)
      ensures !ok ==>
        && View().Before? && |schedule| < old(|schedule|)
        && job.oldHome < heads.Length && LockedNotEnd(heads[job.oldHome]) == !saved.end
    {
      hide Describes, Later, Tolerable, History, NextOf, BitsOf, InTable, Suffix;
      SameNow();
      DescribesShape(job, Now(), View());
      JustSaved(job, Last());
      ghost var m, d := Last(), View().c;
      ghost var bits := BitsOf(job, Now(), d);
      zeroF, oneF, cur, first := FindRepresentatives(saved, d, bits);
      TolerableHere(job, m, Last());
      m := Last();
      var savedOne := (if oneF >= 0 then Make(oneF, job.shift + 1)
        else MakeEnd(job.growHome, job.shift + 1)).(locked := true);
      PublishOne(savedOne, d, bits);
      LaterTrans(old(View()), m.v, View());
      m := Last();
      ok := heads[job.oldHome] == saved;
      if ok {
        var newZero := (if zeroF >= 0 then Make(zeroF, job.shift + 1)
          else MakeEnd(job.oldHome, job.shift + 1)).(locked := true);
        SwingZero(newZero, d, bits);
        LaterTrans(old(View()), m.v, View());
      }
    }

    // The initial big step: publish both heads with the new shift, starting over
    // after a failed CAS, with the lock if the chain is no longer empty.
    method MigrateHeads() returns (zeroF: int, oneF: int, cur: int, first: int)
      requires Valid() && View().Before? && job.oldHome < heads.Length && !LockedNotEnd(heads[job.oldHome])
      modifies heads, nexts, hash, phase, `log, `schedule
      ensures Valid() && old(log) <= log && Later(old(View()), View())
      ensures HeadsMigrated(zeroF, oneF, cur, first)
    {
      hide Describes, Later, History, NextOf, HeadsMigrated;
      var saved := Acquire();
      while true
        invariant Valid() && old(log) <= log && Later(old(View()), View())
        invariant View().Before? && job.oldHome < heads.Length && heads[job.oldHome] == saved && saved.locked
        invariant Plain(saved) == OldLink(job, View().c, 0)
        decreases |schedule|
      {
        ghost var v := View();
        var ok;
        ok, zeroF, oneF, cur, first := TryMigrateHeads(saved);
        LaterTrans(old(View()), v, View());
        if ok { return; }
        v := View();
        DescribedNow();
        HeadLink(job, Now(), View().c);
        if saved.end && !heads[job.oldHome].end {
          saved := Acquire();
          LaterTrans(old(View()), v, View());
        } else {
          saved := heads[job.oldHome];
        }
      }
    }

    // A pointer write that advances the earlier frontier.
    method Advance(x: nat, l: Link, ghost bit: bool)
      requires Valid() && View().After? && View().Frontier(bit) < View().Frontier(!bit) <= |View().c| == |View().bits|
      requires x == View().c[View().Frontier(bit)]
      requires l == NewLink(job, View().c, bit, NextOf(View().bits, bit, View().Frontier(bit) + 1))
      modifies heads, nexts, hash, phase, `log, `schedule
      ensures Progressed()
      ensures View().Frontier(!bit) == old(View().Frontier(!bit))
      ensures View().Frontier(bit) == NextOf(View().bits, bit, old(View().Frontier(bit)) + 1)
    {
      hide Describes, History, NextOf, Tolerable, Suffix;
      ghost var m := Last();
      Interfere();
      TolerableLater(job, m, Last());
      DescribedNow();
      EarlierFrontier(job, Now(), View(), bit);
      AdvanceFrontier(job, Now(), View(), bit);
      ghost var v, f := View(), View().Frontier(bit);
      ghost var v' := MoveFrontier(v, bit, NextOf(v.bits, bit, f + 1));
      LaterSame(v);
      StoreNext(x, l, v');
      LaterTrans(m.v, v, v');
    }

    // How the splitting thread and the others change the state after the big step.
    twostate predicate Progressed()
      reads this, heads, nexts, hash, phase
    {
      && old(Valid()) && Valid() && old(log) <= log
      && View().After? && Later(old(View()), View())
      && HeadLocks(job, Now()) == old(HeadLocks(job, Now()))
    }

    // UpgradeShiftsOnRange: advance the earlier frontier up to the other one, or
    // finish its chain if the other chain is finished.
    method UpgradeShifts(start: nat, stop: Link, ghost bit: bool) returns (frontier: int)
      requires Valid() && View().After? && View().Frontier(bit) < View().Frontier(!bit) <= |View().c| == |View().bits|
      requires start == View().c[View().Frontier(bit)]
      requires stop ==
        if View().Frontier(!bit) < |View().c| then Make(View().c[View().Frontier(!bit)], job.shift)
        else MakeEnd(job.Home(bit), job.shift + 1)
      modifies heads, nexts, hash, phase, `log, `schedule
      ensures Progressed() && View().Frontier(!bit) == old(View().Frontier(!bit))
      ensures View().Frontier(bit) ==
        if old(View().Frontier(!bit)) < |View().c| then old(View().Frontier(!bit)) - 1 else |View().c|
      ensures frontier == At(View().c, View().Frontier(bit))
    {
      hide Describes, History, NextOf, Later, Tolerable, HeadLocks;
      ghost var c, g := View().c, View().Frontier(!bit);
      SameNow();
      LaterSame(View());
      frontier := start;
      while true
        invariant Progressed() && View().c == c && View().bits == old(View().bits)
        invariant View().Frontier(bit) < g == View().Frontier(!bit) <= |c| && frontier == c[View().Frontier(bit)]
        decreases |c| - View().Frontier(bit)
      {
        ghost var m := Last();
        Interfere();
        TolerableLater(job, m, Last());
        LaterTrans(old(View()), m.v, View());
        DescribedNow();
        EarlierFrontier(job, Now(), View(), bit);
        ghost var v := View();
        var l := nexts[frontier];
        if l == stop { return; }
        if l.end {
          Advance(frontier, stop, bit);
          LaterTrans(old(View()), v, View());
          frontier := -1;
          return;
        }
        Advance(frontier, l.(shift := l.shift + 1), bit);
        LaterTrans(old(View()), v, View());
        LaterHere(v, View());
        frontier := l.next;
      }
    }

    // Read the pointer of the entry at position r, ahead of both frontiers, and
    // the target chain of the entry behind it.
    method LoadAhead(cur: nat, ghost r: nat) returns (l: Link, target: bool)
      requires Valid() && View().After? && View().zero <= r && View().one <= r && r < |View().c| && cur == View().c[r]
      modifies heads, nexts, hash, phase, `log, `schedule
      ensures Progressed() && View().c == old(View().c) && View().bits == old(View().bits)
      ensures |View().bits| == |View().c|
      ensures View().zero == old(View().zero) && View().one == old(View().one)
      ensures l == OldLink(job, View().c, r + 1)
      ensures r + 1 < |View().c| ==> target == View().bits[r + 1]
    {
      hide Describes, History, NextOf, Later, Tolerable, HeadLocks, Pow2, Now;
      ghost var m := Last();
      Interfere();
      TolerableLater(job, m, Last());
      AheadNow(r);
      l := nexts[cur];
      target := false;
      if !l.end { target := hash[l.next] % Pow2(job.shift + 1) != job.oldHome; }
    }

    // The small steps: the earlier frontier skips to the next entry of its chain,
    // and the other one catches up to just before that entry.
    method MigrateRest(zeroF: nat, oneF: nat, ahead: nat, first: bool, ghost at: nat)
      requires Valid()
      requires Adjacent(View(), first, at, if first then oneF else zeroF, if first then zeroF else oneF, ahead)
      modifies heads, nexts, hash, phase, `log, `schedule
      ensures Progressed() && Finished(View())
    {
      hide Describes, History, NextOf, Later, Tolerable, HeadLocks, Now, Adjacent;
      SameNow();
      LaterSame(View());
      AdjacentHere(View(), first, at, if first then oneF else zeroF, if first then zeroF else oneF, ahead);
      var bit, cur := first, ahead;
      var firstF: nat, otherF: nat := if first then oneF else zeroF, if first then zeroF else oneF;
      ghost var r, size := at, |View().c|;
      while true
        invariant Progressed() && |View().c| == size && Adjacent(View(), bit, r, firstF, otherF, cur)
        decreases size - r
      {
        ghost var v := View();
        AdjacentHere(v, bit, r, firstF, otherF, cur);
        var l, target := LoadAhead(cur, r);
        AdjacentSame(v, View(), bit, r, firstF, otherF, cur);
        LaterTrans(old(View()), v, View());
        v := View();
        if l.end {
          var _ := SkipTo(firstF, otherF, MakeEnd(job.Home(bit), job.shift + 1), MakeEnd(job.Home(!bit), job.shift + 1),
              bit, r, cur);
          LaterTrans(old(View()), v, View());
          LaterHere(v, View());
          return;
        }
        if target == bit {
          var f := SkipTo(firstF, otherF, Make(l.next, job.shift + 1), l, bit, r, cur);
          LaterTrans(old(View()), v, View());
          LaterHere(v, View());
          AdjacentSwap(v, View(), bit, r, firstF, otherF, cur);
          firstF, otherF := f, l.next;
          bit := !bit;
        } else {
          AdjacentStay(v, bit, r, firstF, otherF, cur);
        }
        cur := l.next;
        r := r + 1;
      }
    }

    // One small step: the earlier frontier moves to the entry behind position r
    // (or its chain is finished), then the other one is upgraded as far as that
    // allows.
    method SkipTo(firstF: nat, otherF: nat, skip: Link, stop: Link, ghost bit: bool, ghost r: nat,
                  ghost cur: nat) returns (f: int)
      requires Valid() && Adjacent(View(), bit, r, firstF, otherF, cur)
      requires r + 1 == |View().c| || View().bits[r + 1] == bit
      requires skip == NewLink(job, View().c, bit, r + 1)
      requires stop ==
        if r + 1 < |View().c| then Make(View().c[r + 1], job.shift) else MakeEnd(job.Home(!bit), job.shift + 1)
      modifies heads, nexts, hash, phase, `log, `schedule
      ensures Progressed() && View().Frontier(bit) == r + 1
      ensures View().Frontier(!bit) == if r + 1 < |View().c| then r else r + 1
      ensures f == At(View().c, View().Frontier(!bit))
    {
      hide Describes, History, NextOf, Later, HeadLocks;
      ghost var v := View();
      NextOfIs(v.bits, bit, v.Frontier(bit) + 1, r + 1);
      Advance(firstF, skip, bit);
      LaterHere(v, View());
      ghost var v' := View();
      f := UpgradeShifts(otherF, stop, !bit);
      LaterTrans(v, v', View());
      LaterHere(v', View());
    }

    // The destructors of both locks.
    method Release(bit: bool)
      requires Valid() && View().After? && job.Home(bit) < heads.Length && LockedNotEnd(heads[job.Home(bit)])
      modifies heads, nexts, hash, phase, `log, `schedule
      ensures Valid() && old(log) <= log && Unmoved(old(View()), View())
      ensures job.oldHome != job.growHome && job.oldHome < heads.Length && job.growHome < heads.Length
      ensures !LockedNotEnd(heads[job.Home(bit)])
      ensures LockedNotEnd(heads[job.Home(!bit)]) == old(LockedNotEnd(heads[job.Home(!bit)]))
    {
      hide Describes, History, NextOf, Later;
      ghost var m := Last();
      SameNow();
      DescribesShape(job, Now(), View());
      Interfere();
      TolerableHere(job, m, Last());
      TolerableLater(job, m, Last());
      SameNow();
      LaterSame(View());
      var l := heads[job.Home(bit)].(locked := false);
      Relock(job, Now(), View(), bit, l);
      StoreHead(job.Home(bit), l, View());
    }

    method ReleaseBoth(zeroHeld: bool, oneHeld: bool)
      requires Valid() && View().After? && HeadLocks(job, Now()) == (zeroHeld, oneHeld)
      modifies heads, nexts, hash, phase, `log, `schedule
      ensures Valid() && old(log) <= log && Unmoved(old(View()), View())
      ensures HeadLocks(job, Now()) == (false, false)
    {
      hide Describes, History, NextOf, Later;
      SameNow();
      DescribesShape(job, Now(), View());
      LaterSame(View());
      if oneHeld { Release(true); }
      ghost var v := View();
      if zeroHeld { Release(false); }
      LaterSame(View());
      LaterTrans(old(View()), v, View());
    }

    // Everything after the big step.
    method Migrate(zeroF: int, oneF: int, cur: int, first: int)
      requires Valid() && HeadsMigrated(zeroF, oneF, cur, first)
      modifies heads, nexts, hash, phase, `log, `schedule
      ensures Progressed() && Finished(View())
    {
      hide Describes, History, Later;
      SameNow();
      LaterSame(View());
      if first < 0 { return; }
      var bit := first == 1;
      var firstF, otherF := if bit then oneF else zeroF, if bit then zeroF else oneF;
      ghost var at := View().Frontier(!bit);
      var stop := if otherF >= 0 then Make(otherF, job.shift) else MakeEnd(job.Home(bit), job.shift + 1);
      ghost var v := View();
      firstF := UpgradeShifts(firstF, stop, bit);
      LaterHere(v, View());
      if firstF < 0 { return; }
      ghost var v' := View();
      MigrateRest(if bit then otherF else firstF, if bit then firstF else otherF, cur, bit, at);
      LaterTrans(v, v', View());
    }

    // SplitForGrow.
    method Run()
      requires Valid() && View().Before? && job.oldHome < heads.Length && !LockedNotEnd(heads[job.oldHome])
      modifies heads, nexts, hash, phase, `log, `schedule
      // every state in between was a described one
      ensures Valid() && old(log) <= log
      // nothing of the old chain is lost, and what was added came in at a head
      ensures Later(old(View()), View()) && Finished(View())
      // two proper chains, each with its own entries in the original order
      ensures IsChain(Now(), job.oldHome, job.shift + 1, Output(View(), false))
      ensures IsChain(Now(), job.growHome, job.shift + 1, Output(View(), true))
      ensures Belong(Now(), job.oldHome, job.shift + 1, Output(View(), false))
      ensures Belong(Now(), job.growHome, job.shift + 1, Output(View(), true))
      // and no lock is left behind
      ensures HeadLocks(job, Now()) == (false, false)
    {
      hide Describes, History, NextOf, Later, IsChain, Belong;
      var zeroF, oneF, cur, first := MigrateHeads();
      var zeroHeld, oneHeld := zeroF >= 0, oneF >= 0;
      ghost var v := View();
      Migrate(zeroF, oneF, cur, first);
      LaterTrans(old(View()), v, View());
      v := View();
      ReleaseBoth(zeroHeld, oneHeld);
      LaterTrans(old(View()), v, View());
      LaterHere(v, View());
      DescribedNow();
      FinishedSplit(job, Now(), View(), false);
      FinishedSplit(job, Now(), View(), true);
    }
  }

  // Which of the two rewrite locks are held.
  function HeadLocks(job: Job, t: Table): (bool, bool) {
    if job.oldHome < |t.heads| && job.growHome < |t.heads|
    then (LockedNotEnd(t.heads[job.oldHome]), LockedNotEnd(t.heads[job.growHome])) else (false, false)
  }

  lemma LaterSame(v: View)
    ensures Later(v, v)
  {
  }

  lemma LaterHere(v: View, w: View)
    requires Later(v, w) && v.After?
    ensures w.After? && w.c == v.c && w.bits == v.bits && v.zero <= w.zero && v.one <= w.one
  {
  }

  lemma TolerableLater(job: Job, m: Moment, m': Moment)
    requires Tolerable(job, m, m')
    ensures Later(m.v, m'.v) && HeadLocks(job, m'.t) == HeadLocks(job, m.t)
    ensures m.v.After? ==>
      m'.v.After? && m'.v.c == m.v.c && m'.v.bits == m.v.bits && m'.v.zero == m.v.zero && m'.v.one == m.v.one
  {
  }

  lemma HeadLink(job: Job, t: Table, c: seq<nat>)
    requires Describes(job, t, Before(c))
    ensures Plain(t.heads[job.oldHome]) == OldLink(job, c, 0)
  {
    hide Pow2, OnChain;
  }
}
