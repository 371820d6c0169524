// The steps of a split: why every single pointer write keeps the description of
// the table, and what a walk visits in any described table.
module ChainSplit {
  import opened Probing
  import opened ChainModel

  // -- walking -------------------------------------------------------------------------

  // Prepending one entry to a walk.
  lemma LeadsCons(t: Table, from: Link, x: nat, q: seq<nat>, last: Link)
    requires !from.end && from.next == x && x < |t.nexts| && Leads(t, t.nexts[x], q, last)
    ensures Leads(t, from, [x] + q, last)
  {
    assert ([x] + q)[1..] == q;
  }

  // A walk does not depend on the lock flag of the pointer it starts from.
  lemma LeadsPlain(t: Table, from: Link, p: seq<nat>, last: Link)
    ensures Leads(t, from, p, last) <==> Leads(t, Plain(from), p, last)
  {
  }

  lemma LinkedTail(t: Table, head: Link, shift: nat, p: seq<nat>, last: Link)
    requires Plain(last) == last && Linked(t, head, shift, p, last) && p != []
    ensures Linked(t, t.nexts[p[0]], shift, p[1..], last)
  {
    var q := p[1..];
    forall i | 0 <= i < |q| ensures t.nexts[q[i]] == Ptr(q, i + 1, shift, last) {
      assert q[i] == p[i + 1];
    }
  }

  // Linked entries in front of a walk.
  lemma {:induction false} LinkedThenLeads(t: Table, head: Link, shift: nat, p: seq<nat>, mid: Link, q: seq<nat>,
                                           last: Link)
    requires Plain(mid) == mid && Linked(t, head, shift, p, mid) && Leads(t, mid, q, last)
    ensures Leads(t, head, p + q, last)
    decreases |p|
  {
    if p == [] {
      assert p + q == q;
      LeadsPlain(t, head, q, last);
    } else {
      LinkedTail(t, head, shift, p, mid);
      LinkedThenLeads(t, t.nexts[p[0]], shift, p[1..], mid, q, last);
      LeadsCons(t, head, p[0], p[1..] + q, last);
      assert [p[0]] + (p[1..] + q) == p + q;
    }
  }

  // Behind its frontier every pointer is still original.
  lemma {:induction false} OriginalTail(job: Job, t: Table, v: View, bit: bool, k: nat)
    requires v.After? && PointersOk(job, t, v)
    requires v.Frontier(bit) < k <= |v.c|
    ensures Leads(t, OldLink(job, v.c, k), v.c[k..], MakeEnd(job.oldHome, job.shift))
    decreases |v.c| - k
  {
    if k < |v.c| {
      assert PointerOk(job, t, v, k);
      OriginalTail(job, t, v, bit, k + 1);
      LeadsCons(t, OldLink(job, v.c, k), v.c[k], v.c[k + 1..], MakeEnd(job.oldHome, job.shift));
      assert [v.c[k]] + v.c[k + 1..] == v.c[k..];
    }
  }

  // At the frontier: its own pointer is original.
  lemma FrontierPart(job: Job, t: Table, v: View, bit: bool)
    requires v.After? && PointersOk(job, t, v)
    ensures Leads(t, NewLink(job, v.c, bit, v.Frontier(bit)), v.c[v.Frontier(bit)..], LastMarker(job, v, bit))
  {
    var k := v.Frontier(bit);
    if k < |v.c| {
      assert PointerOk(job, t, v, k);
      OriginalTail(job, t, v, bit, k + 1);
      LeadsCons(t, NewLink(job, v.c, bit, k), v.c[k], v.c[k + 1..], LastMarker(job, v, bit));
      assert [v.c[k]] + v.c[k + 1..] == v.c[k..];
    }
  }

  // The migrated pointers visit the entries of the chain and, unless the chain
  // is finished, go on behind the frontier.
  lemma {:induction false} MigratedPart(job: Job, t: Table, v: View, bit: bool, k: nat)
    requires v.After? && PointersOk(job, t, v)
    requires k <= v.Frontier(bit)
    ensures Leads(t, NewLink(job, v.c, bit, NextOf(v.bits, bit, k)), WalkFrom(v, bit, k), LastMarker(job, v, bit))
    decreases v.Frontier(bit) - k
  {
    if k == v.Frontier(bit) {
      assert NextOf(v.bits, bit, k) == k;
      FrontierPart(job, t, v, bit);
    } else {
      MigratedPart(job, t, v, bit, k + 1);
      if v.bits[k] == bit {
        assert PointerOk(job, t, v, k);
        LeadsCons(t, NewLink(job, v.c, bit, k), v.c[k], WalkFrom(v, bit, k + 1), LastMarker(job, v, bit));
      } else {
        assert [] + WalkFrom(v, bit, k + 1) == WalkFrom(v, bit, k + 1);
      }
    }
  }

  // In every described state after the big step, a walk from either head visits
  // the entries inserted since, then the entries of its chain up to the
  // frontier, then everything behind the frontier, and ends at an end marker:
  // its own new one if that chain is finished, else the old one.
  lemma WalkVisits(job: Job, t: Table, v: View, bit: bool)
    requires v.After? && Describes(job, t, v)
    ensures Leads(t, t.heads[job.Home(bit)], v.Ins(bit) + WalkFrom(v, bit, 0), LastMarker(job, v, bit))
  {
    MigratedPart(job, t, v, bit, 0);
    LinkedThenLeads(t, t.heads[job.Home(bit)], job.shift + 1, v.Ins(bit),
                    NewLink(job, v.c, bit, NextOf(v.bits, bit, 0)), WalkFrom(v, bit, 0), LastMarker(job, v, bit));
  }

  lemma {:induction false} WalkHas(v: View, bit: bool, j: nat, k: nat)
    requires v.After? && |v.c| == |v.bits| && j <= k < |v.c| && j <= v.Frontier(bit) <= |v.c| && v.bits[k] == bit
    ensures v.c[k] in WalkFrom(v, bit, j)
    decreases k - j
  {
    if j == v.Frontier(bit) {
      assert v.c[j..][k - j] == v.c[k];
    } else if j < k {
      WalkHas(v, bit, j + 1, k);
    }
  }

  // No entry is ever out of reach: in every described state the walk from the
  // head of its output chain visits it.
  lemma WalkReachesAll(job: Job, t: Table, v: View, k: nat)
    requires v.After? && Describes(job, t, v) && k < |v.c|
    ensures v.c[k] in v.Ins(v.bits[k]) + WalkFrom(v, v.bits[k], 0)
  {
    WalkHas(v, v.bits[k], 0, k);
  }

  // -- the writes --------------------------------------------------------------------------

  // The first, speculative write: nobody uses the new head yet.
  lemma StoreGrowHead(job: Job, t: Table, c: seq<nat>, l: Link)
    requires Describes(job, t, Before(c))
    ensures Describes(job, t.(heads := t.heads[job.growHome := l]), Before(c))
  {
    var t' := t.(heads := t.heads[job.growHome := l]);
    assert t'.heads[job.oldHome] == t.heads[job.oldHome];
  }

  // The bits of the entries of a chain.
  function BitsOf(job: Job, t: Table, c: seq<nat>): (bits: seq<bool>)
    requires InTable(t, c) && t.Valid()
    ensures |bits| == |c|
    ensures forall k :: 0 <= k < |c| ==> bits[k] == BitOf(job, t.hash[c[k]])
  {
    seq(|c|, k requires 0 <= k < |c| => BitOf(job, t.hash[c[k]]))
  }

  function BigStepView(job: Job, t: Table, c: seq<nat>): View
    requires InTable(t, c) && t.Valid()
  {
    var bits := BitsOf(job, t, c);
    After(c, bits, NextOf(bits, false, 0), NextOf(bits, true, 0), [], [])
  }

  // The big step: with the new head already pointing at the first entry of the
  // one chain, redirecting the old head completes both chains at once.
  lemma BigStep(job: Job, t: Table, c: seq<nat>, l: Link)
    requires Describes(job, t, Before(c))
    requires var bits := BitsOf(job, t, c);
      && Plain(t.heads[job.growHome]) == NewLink(job, c, true, NextOf(bits, true, 0))
      && Plain(l) == NewLink(job, c, false, NextOf(bits, false, 0))
    ensures Describes(job, t.(heads := t.heads[job.oldHome := l]), BigStepView(job, t, c))
  {
    var t' := t.(heads := t.heads[job.oldHome := l]);
    var v := BigStepView(job, t, c);
    assert v.Members() == c;
    UnsplitPointers(job, t, c, t');
  }

  // Until a frontier moves, all pointers are the original ones.
  lemma UnsplitPointers(job: Job, t: Table, c: seq<nat>, t': Table)
    requires t.Valid() && IsChain(t, job.oldHome, job.shift, c) && t'.nexts == t.nexts
    ensures PointersOk(job, t', BigStepView(job, t, c))
  {
    var v := BigStepView(job, t, c);
    forall k | 0 <= k < |c| ensures PointerOk(job, t', v, k) {
      assert k >= v.Frontier(v.bits[k]);
    }
  }

  // Move the frontier of chain `bit` to position k.
  function MoveFrontier(v: View, bit: bool, k: nat): View
    requires v.After?
  {
    if bit then v.(one := k) else v.(zero := k)
  }

  // Every later write advances the earlier frontier: the frontier entry gets its
  // migrated pointer, which skips the entries of the other chain.
  lemma AdvanceFrontier(job: Job, t: Table, v: View, bit: bool)
    requires v.After? && Describes(job, t, v) && v.Frontier(bit) < v.Frontier(!bit)
    ensures var f := v.Frontier(bit);
      var next := NextOf(v.bits, bit, f + 1);
      Describes(job, t.(nexts := t.nexts[v.c[f] := NewLink(job, v.c, bit, next)]), MoveFrontier(v, bit, next))
  {
    hide Pow2, PointersOk, BitsOk, HeadOk, MembersOk, NextOf;
    var f := v.Frontier(bit);
    FrontierInside(job, t, v, bit);
    var next := NextOf(v.bits, bit, f + 1);
    var t' := t.(nexts := t.nexts[v.c[f] := NewLink(job, v.c, bit, next)]);
    var v' := MoveFrontier(v, bit, next);
    AdvanceMembers(job, t, v, t', v');
    AdvancePointers(job, t, v, bit);
    AdvanceHead(job, t, v, f, t', v', false);
    AdvanceHead(job, t, v, f, t', v', true);
  }

  // Membership and bits do not depend on the frontiers or the pointers.
  lemma AdvanceMembers(job: Job, t: Table, v: View, t': Table, v': View)
    requires v.After? && v'.After? && MembersOk(t, v) && BitsOk(job, t, v)
    requires v'.c == v.c && v'.bits == v.bits && v'.ins0 == v.ins0 && v'.ins1 == v.ins1
    requires t'.hash == t.hash && t'.phase == t.phase && |t'.nexts| == |t.nexts|
    ensures MembersOk(t', v') && BitsOk(job, t', v') && Distinct(v.Members()) && Distinct(v.c)
  {
    hide BitOf, OnChain;
    assert v'.Members() == v.Members();
    OriginalDistinct(v);
  }

  lemma FrontierInside(job: Job, t: Table, v: View, bit: bool)
    requires v.After? && PointersOk(job, t, v) && v.Frontier(bit) < v.Frontier(!bit)
    ensures v.Frontier(bit) < |v.c| == |v.bits| && v.c[v.Frontier(bit)] < |t.nexts|
  {
  }

  lemma AdvanceHead(job: Job, t: Table, v: View, f: nat, t': Table, v': View, b: bool)
    requires v.After? && v'.After? && |v.c| == |v.bits| && Distinct(v.Members()) && f < |v.c| && HeadOk(job, t, v, b)
    requires v'.c == v.c && v'.bits == v.bits && v'.ins0 == v.ins0 && v'.ins1 == v.ins1
    requires t'.heads == t.heads && t'.hash == t.hash && |t'.nexts| == |t.nexts|
    requires forall y :: 0 <= y < |t.nexts| && y != v.c[f] ==> t'.nexts[y] == t.nexts[y]
    ensures HeadOk(job, t', v', b)
  {
    NotInserted(v, b, f);
    LinkedFrame(t, t.heads[job.Home(b)], job.shift + 1, v.Ins(b), NewLink(job, v.c, b, NextOf(v.bits, b, 0)), v.c[f],
        t');
  }

  lemma OriginalDistinct(v: View)
    requires v.After? && Distinct(v.Members())
    ensures Distinct(v.c)
  {
    assert forall i :: 0 <= i < |v.c| ==> v.Members()[i] == v.c[i];
  }

  // An original entry is not among the inserted ones.
  lemma NotInserted(v: View, bit: bool, k: nat)
    requires v.After? && Distinct(v.Members()) && k < |v.c|
    ensures v.c[k] !in v.Ins(bit)
  {
    var m := v.Members();
    assert m[k] == v.c[k];
    forall i | 0 <= i < |v.Ins(bit)| ensures v.Ins(bit)[i] != v.c[k] {
      assert m[if bit then |v.c| + |v.ins0| + i else |v.c| + i] == v.Ins(bit)[i];
    }
  }

  lemma AdvancePointers(job: Job, t: Table, v: View, bit: bool)
    requires v.After? && PointersOk(job, t, v) && Distinct(v.c) && v.Frontier(bit) < v.Frontier(!bit)
    ensures var f := v.Frontier(bit);
      var next := NextOf(v.bits, bit, f + 1);
      PointersOk(job, t.(nexts := t.nexts[v.c[f] := NewLink(job, v.c, bit, next)]), MoveFrontier(v, bit, next))
  {
    var f := v.Frontier(bit);
    var next := NextOf(v.bits, bit, f + 1);
    var t' := t.(nexts := t.nexts[v.c[f] := NewLink(job, v.c, bit, next)]);
    var v' := MoveFrontier(v, bit, next);
    assert FrontiersOk(v') by { AdvanceBetween(v, bit); }
    forall k | 0 <= k < |v.c| ensures PointerOk(job, t', v', k) {
      assert PointerOk(job, t, v, k);
      assert k != f ==> v.c[k] != v.c[f];
      assert v.bits[k] == bit && f < k ==> next <= k;
    }
  }

  lemma AdvanceBetween(v: View, bit: bool)
    requires v.After? && |v.c| == |v.bits| && FrontiersOk(v) && v.Frontier(bit) < v.Frontier(!bit)
    ensures FrontiersOk(MoveFrontier(v, bit, NextOf(v.bits, bit, v.Frontier(bit) + 1)))
  {
    var f, g := v.Frontier(bit), v.Frontier(!bit);
    if f + 1 < g { assert v.bits[f + 1] == bit; }
  }

  // -- concurrent insertion at a head ----------------------------------------------------------

  // DoInsert's final CAS: entry x now precedes the chain of `home`; a rewrite
  // lock on the head is preserved and not copied into the chain.
  function InsertAt(t: Table, home: nat, x: nat, hash: nat): Table
    requires t.Valid() && home < t.Size() && x < t.Size()
  {
    var head := t.heads[home];
    Table(t.heads[home := Make(x, head.shift).(locked := LockedNotEnd(head))],
          t.nexts[x := Plain(head)], t.hash[x := hash], t.phase[x := Live])
  }

  lemma InsertBefore(job: Job, t: Table, c: seq<nat>, x: nat, hash: nat)
    requires Describes(job, t, Before(c)) && x < t.Size() && t.phase[x].Free?
    requires OnChain(job.oldHome, job.shift, hash)
    ensures Describes(job, InsertAt(t, job.oldHome, x, hash), Before([x] + c))
  {
    hide Pow2, OnChain, Belong;
    var t' := InsertAt(t, job.oldHome, x, hash);
    var c' := [x] + c;
    assert Before(c).Members() == c && Before(c').Members() == c';
    assert x !in c;
    assert BeforeOk(job, t, c) && MembersOk(t, Before(c));
    BelongPush(t, job.oldHome, job.shift, c, x, hash, t');
    LinkedPush(t, t.heads[job.oldHome], job.shift, c, MakeEnd(job.oldHome, job.shift), x, t');
  }

  // Pushing an entry in front of linked entries.
  lemma LinkedPush(t: Table, head: Link, shift: nat, p: seq<nat>, last: Link, x: nat, t': Table)
    requires Linked(t, head, shift, p, last) && x < |t.nexts| && x !in p
    requires t'.nexts == t.nexts[x := Plain(head)]
    ensures forall h: Link :: Plain(h) == Make(x, shift) ==> Linked(t', h, shift, [x] + p, last)
  {
    var p' := [x] + p;
    forall i | 0 <= i < |p'| ensures t'.nexts[p'[i]] == Ptr(p', i + 1, shift, last) {
      if i > 0 { assert p'[i] == p[i - 1]; }
    }
  }

  // Linked entries do not notice a write elsewhere.
  lemma LinkedFrame(t: Table, head: Link, shift: nat, p: seq<nat>, last: Link, x: nat, t': Table)
    requires Linked(t, head, shift, p, last) && x !in p
    requires |t'.nexts| == |t.nexts| && forall y :: 0 <= y < |t.nexts| && y != x ==> t'.nexts[y] == t.nexts[y]
    ensures Linked(t', head, shift, p, last)
  {
  }

  function PushIns(v: View, bit: bool, x: nat): View
    requires v.After?
  {
    if bit then v.(ins1 := [x] + v.ins1) else v.(ins0 := [x] + v.ins0)
  }

  lemma BelongPush(t: Table, home: nat, shift: nat, p: seq<nat>, x: nat, hash: nat, t': Table)
    requires Belong(t, home, shift, p) && x < |t.hash| && t'.hash == t.hash[x := hash] && OnChain(home, shift, hash)
    ensures Belong(t', home, shift, [x] + p)
  {
    hide OnChain;
    var p' := [x] + p;
    forall i | 0 <= i < |p'| ensures p'[i] < |t'.hash| && OnChain(home, shift, t'.hash[p'[i]]) {
      if i > 0 { assert p'[i] == p[i - 1]; }
    }
  }

  lemma InsertAfter(job: Job, t: Table, v: View, bit: bool, x: nat, hash: nat)
    requires v.After? && Describes(job, t, v) && x < t.Size() && t.phase[x].Free?
    requires OnChain(job.Home(bit), job.shift + 1, hash)
    ensures Describes(job, InsertAt(t, job.Home(bit), x, hash), PushIns(v, bit, x))
  {
    hide Pow2, OnChain, HeadOk, PointersOk, BitsOk, MembersOk;
    var t' := InsertAt(t, job.Home(bit), x, hash);
    FreshMember(t, v, x);
    InsertMembers(t, v, bit, x, t');
    InsertPointers(job, t, v, bit, x, t');
    InsertBits(job, t, v, bit, x, t');
    InsertHere(job, t, v, bit, x, hash);
    InsertThere(job, t, v, bit, x, hash);
  }

  lemma InsertPointers(job: Job, t: Table, v: View, bit: bool, x: nat, t': Table)
    requires v.After? && PointersOk(job, t, v) && x < |t.nexts| && x !in v.c
    requires |t'.nexts| == |t.nexts| && forall y :: 0 <= y < |t.nexts| && y != x ==> t'.nexts[y] == t.nexts[y]
    ensures PointersOk(job, t', PushIns(v, bit, x))
  {
    hide NextOf;
    var v' := PushIns(v, bit, x);
    forall k | 0 <= k < |v.c| ensures PointerOk(job, t', v', k) {
      assert PointerOk(job, t, v, k);
    }
  }

  lemma InsertBits(job: Job, t: Table, v: View, bit: bool, x: nat, t': Table)
    requires v.After? && BitsOk(job, t, v) && x < |t.hash| && x !in v.c
    requires |t'.hash| == |t.hash| && forall y :: 0 <= y < |t.hash| && y != x ==> t'.hash[y] == t.hash[y]
    ensures |v.c| == |v.bits| && BitsOk(job, t', PushIns(v, bit, x))
  {
    hide OnChain, BitOf;
  }

  // The chain that gains the entry.
  lemma InsertHere(job: Job, t: Table, v: View, bit: bool, x: nat, hash: nat)
    requires v.After? && t.Valid() && job.Ok(t.Size()) && |v.c| == |v.bits| && HeadOk(job, t, v, bit)
    requires x < t.Size() && x !in v.Ins(bit) && OnChain(job.Home(bit), job.shift + 1, hash)
    ensures HeadOk(job, InsertAt(t, job.Home(bit), x, hash), PushIns(v, bit, x), bit)
  {
    hide Pow2, OnChain, Belong, NextOf, Linked;
    var t' := InsertAt(t, job.Home(bit), x, hash);
    var head, ins := t.heads[job.Home(bit)], v.Ins(bit);
    var first := NewLink(job, v.c, bit, NextOf(v.bits, bit, 0));
    HeadShift(t, head, job.shift + 1, ins, first);
    LinkedPush(t, head, job.shift + 1, ins, first, x, t');
    BelongPush(t, job.Home(bit), job.shift + 1, ins, x, hash, t');
  }

  lemma HeadShift(t: Table, head: Link, shift: nat, p: seq<nat>, last: Link)
    requires Linked(t, head, shift, p, last) && last.shift == shift
    ensures head.shift == shift
  {
  }

  // The other chain does not notice.
  lemma InsertThere(job: Job, t: Table, v: View, bit: bool, x: nat, hash: nat)
    requires v.After? && t.Valid() && job.Ok(t.Size()) && |v.c| == |v.bits| && HeadOk(job, t, v, !bit)
    requires x < t.Size() && x !in v.Ins(!bit)
    ensures HeadOk(job, InsertAt(t, job.Home(bit), x, hash), PushIns(v, bit, x), !bit)
  {
    hide Pow2, OnChain, NextOf, Linked;
    var t' := InsertAt(t, job.Home(bit), x, hash);
    var ins := v.Ins(!bit);
    LinkedFrame(t, t.heads[job.Home(!bit)], job.shift + 1, ins, NewLink(job, v.c, !bit, NextOf(v.bits, !bit, 0)), x,
        t');
    assert forall i :: 0 <= i < |ins| ==> ins[i] != x;
  }

  // A free slot is no member.
  lemma FreshMember(t: Table, v: View, x: nat)
    requires v.After? && MembersOk(t, v) && x < |t.phase| && t.phase[x].Free?
    ensures x !in v.Members() && x !in v.c && x !in v.ins0 && x !in v.ins1
  {
    var m := v.Members();
    assert x !in m;
    assert forall i :: 0 <= i < |v.c| ==> m[i] == v.c[i];
    assert forall i :: 0 <= i < |v.ins0| ==> m[|v.c| + i] == v.ins0[i];
    assert forall i :: 0 <= i < |v.ins1| ==> m[|v.c| + |v.ins0| + i] == v.ins1[i];
  }

  lemma InsertMembers(t: Table, v: View, bit: bool, x: nat, t': Table)
    requires v.After? && MembersOk(t, v) && x < |t.phase| && x < |t.nexts| && x !in v.Members()
    requires |t'.nexts| == |t.nexts| && t'.phase == t.phase[x := Live]
    ensures MembersOk(t', PushIns(v, bit, x))
  {
    var m, m' := v.Members(), PushIns(v, bit, x).Members();
    var at := if bit then |v.c| + |v.ins0| else |v.c|;
    assert m' == m[..at] + [x] + m[at..];
  }
}
