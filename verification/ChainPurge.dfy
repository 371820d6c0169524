// PurgeImplLocked on the arrays of AutoHyperClockTable: under the rewrite lock of
// one chain, entries that are under (de)construction are unlinked while other
// threads keep inserting at the head and retiring entries. As in SplitForGrow the
// other threads are an explicit input, consumed before every access.
module ChainPurge {
  import opened ChainModel
  import opened ChainSplit

  // One state of the table and the entries on the chain in it.
  datatype Moment = Moment(t: Table, p: seq<nat>)

  predicate Occupied(t: Table, p: seq<nat>) {
    forall i :: 0 <= i < |p| ==> p[i] < |t.phase| && !t.phase[p[i]].Free?
  }

  predicate ChainOk(home: nat, shift: nat, t: Table, p: seq<nat>) {
    && t.Valid() && home < t.Size()
    && IsChain(t, home, shift, p) && Belong(t, home, shift, p)
    && Distinct(p) && Occupied(t, p)
  }

  // Occupied slots keep their entry, and once under construction they stay so
  // while the lock is held; what leaves the chain is under construction, and
  // nothing comes back.
  predicate Evolves(m: Moment, m': Moment) {
    && |m.t.hash| == |m.t.phase| == |m'.t.phase| == |m'.t.hash| && |m.t.heads| == |m'.t.heads|
    && (forall x :: 0 <= x < |m.t.phase| && !m.t.phase[x].Free? ==> !m'.t.phase[x].Free? && m'.t.hash[x] == m.t.hash[x])
    && (forall x :: 0 <= x < |m.t.phase| && m.t.phase[x].Dying? ==> m'.t.phase[x].Dying?)
    && (forall e :: e in m.p ==> e in m'.p || (e < |m'.t.phase| && m'.t.phase[e].Dying?))
    && (forall e :: e in m'.p ==> e in m.p || (e < |m.t.phase| && m.t.phase[e].Free?))
  }

  lemma EvolvesTrans(m: Moment, m': Moment, m'': Moment)
    requires Evolves(m, m') && Evolves(m', m'')
    ensures Evolves(m, m'')
  {
  }

  predicate History(home: nat, shift: nat, log: seq<Moment>) {
    && (forall i :: 0 <= i < |log| ==> ChainOk(home, shift, log[i].t, log[i].p))
    && (forall i, j :: 0 <= i < j < |log| ==> Evolves(log[i], log[j]))
  }

  lemma HistoryPush(home: nat, shift: nat, log: seq<Moment>, m: Moment)
    requires History(home, shift, log) && log != [] && ChainOk(home, shift, m.t, m.p) && Evolves(log[|log| - 1], m)
    ensures History(home, shift, log + [m])
  {
    hide ChainOk, Evolves;
    var log' := log + [m];
    forall i | 0 <= i < |log| ensures Evolves(log'[i], m) {
      if i < |log| - 1 { EvolvesTrans(log[i], log[|log| - 1], m); }
    }
  }

  // -- what others do -----------------------------------------------------------------------

  function Act(home: nat, shift: nat, t: Table, a: Action): Table
    requires t.Valid() && home < t.Size()
  {
    match a
    case Insert(x, hash) =>
      if x < t.Size() && t.phase[x].Free? && OnChain(home, shift, hash) then InsertAt(t, home, x, hash) else t
    case Retire(x) =>
      if x < t.Size() && t.phase[x].Live? then t.(phase := t.phase[x := Dying]) else t
  }

  function Arrivals(home: nat, shift: nat, t: Table, a: Action): seq<nat>
    requires t.Valid() && home < t.Size()
  {
    if a.Insert? && a.slot < t.Size() && t.phase[a.slot].Free? && OnChain(home, shift, a.hash) then [a.slot] else []
  }

  lemma PushOk(home: nat, shift: nat, t: Table, p: seq<nat>, x: nat, hash: nat)
    requires ChainOk(home, shift, t, p) && x < t.Size() && t.phase[x].Free? && OnChain(home, shift, hash)
    ensures ChainOk(home, shift, InsertAt(t, home, x, hash), [x] + p)
    ensures Evolves(Moment(t, p), Moment(InsertAt(t, home, x, hash), [x] + p))
  {
    hide OnChain, Belong;
    var t' := InsertAt(t, home, x, hash);
    assert x !in p;
    HeadShift(t, t.heads[home], shift, p, MakeEnd(home, shift));
    BelongPush(t, home, shift, p, x, hash, t');
    LinkedPush(t, t.heads[home], shift, p, MakeEnd(home, shift), x, t');
  }

  lemma RetireOk(home: nat, shift: nat, t: Table, p: seq<nat>, x: nat)
    requires ChainOk(home, shift, t, p) && x < t.Size() && t.phase[x].Live?
    ensures var t' := t.(phase := t.phase[x := Dying]);
      ChainOk(home, shift, t', p) && Evolves(Moment(t, p), Moment(t', p))
  {
    hide OnChain;
  }

  lemma ActOk(home: nat, shift: nat, t: Table, p: seq<nat>, a: Action)
    requires ChainOk(home, shift, t, p)
    ensures var t', p' := Act(home, shift, t, a), Arrivals(home, shift, t, a) + p;
      && ChainOk(home, shift, t', p') && Evolves(Moment(t, p), Moment(t', p'))
      && LockedNotEnd(t'.heads[home]) == LockedNotEnd(t.heads[home])
  {
    hide ChainOk, OnChain, Evolves;
    assert t.Valid() && home < t.Size() by { ChainShape(home, shift, t, p); }
    match a
    case Insert(x, hash) =>
      if x < t.Size() && t.phase[x].Free? && OnChain(home, shift, hash) { PushOk(home, shift, t, p, x, hash); }
      else { Same(home, shift, t, p); assert [] + p == p; }
    case Retire(x) =>
      assert [] + p == p;
      if x < t.Size() && t.phase[x].Live? { RetireOk(home, shift, t, p, x); } else { Same(home, shift, t, p); }
  }

  lemma Same(home: nat, shift: nat, t: Table, p: seq<nat>)
    requires ChainOk(home, shift, t, p)
    ensures Evolves(Moment(t, p), Moment(t, p))
  {
  }

  lemma ChainShape(home: nat, shift: nat, t: Table, p: seq<nat>)
    requires ChainOk(home, shift, t, p)
    ensures t.Valid() && home < t.Size() && Distinct(p) && InTable(t, p)
  {
  }

  // -- unlinking ------------------------------------------------------------------------------------

  predicate AllDying(t: Table, p: seq<nat>) {
    forall i :: 0 <= i < |p| ==> p[i] < |t.phase| && t.phase[p[i]].Dying?
  }

  lemma CutIndex(a: seq<nat>, b: seq<nat>, r: seq<nat>, i: nat)
    requires i < |a + r|
    ensures (a + r)[i] == (a + b + r)[if i < |a| then i else i + |b|]
  {
  }

  // What holds of every entry, or every pair of entries, of a chain still holds
  // without b.
  lemma CutMembers(home: nat, shift: nat, t: Table, a: seq<nat>, b: seq<nat>, r: seq<nat>)
    requires Belong(t, home, shift, a + b + r) && Distinct(a + b + r) && Occupied(t, a + b + r) && InTable(t, a + b + r)
    ensures Belong(t, home, shift, a + r) && Distinct(a + r) && Occupied(t, a + r) && InTable(t, a + r)
  {
    hide OnChain;
    var p, q := a + b + r, a + r;
    forall i | 0 <= i < |q|
      ensures q[i] < |t.hash| && OnChain(home, shift, t.hash[q[i]]) && q[i] < |t.phase| && !t.phase[q[i]].Free?
      ensures q[i] < |t.nexts|
    {
      CutIndex(a, b, r, i);
    }
    forall i, j | 0 <= i < j < |q| ensures q[i] != q[j] {
      CutIndex(a, b, r, i);
      CutIndex(a, b, r, j);
    }
  }

  lemma CutLinked(t: Table, head: Link, shift: nat, a: seq<nat>, b: seq<nat>, r: seq<nat>, last: Link, t': Table)
    requires Linked(t, head, shift, a + b + r, last) && Distinct(a + b + r) && a != []
    requires a[|a| - 1] < |t.nexts| && t'.nexts == t.nexts[a[|a| - 1] := Ptr(r, 0, shift, last)]
    ensures Linked(t', head, shift, a + r, last)
  {
    var p, q := a + b + r, a + r;
    assert p[|a| - 1] == a[|a| - 1];
    forall i | 0 <= i < |q| ensures q[i] < |t'.nexts| && t'.nexts[q[i]] == Ptr(q, i + 1, shift, last) {
      CutPointer(t, head, shift, a, b, r, last, t', i);
    }
  }

  lemma CutPointer(t: Table, head: Link, shift: nat, a: seq<nat>, b: seq<nat>, r: seq<nat>, last: Link, t': Table,
                   i: nat)
    requires Linked(t, head, shift, a + b + r, last) && Distinct(a + b + r) && a != []
    requires a[|a| - 1] < |t.nexts| && t'.nexts == t.nexts[a[|a| - 1] := Ptr(r, 0, shift, last)]
    requires i < |a + r|
    ensures (a + r)[i] < |t'.nexts| && t'.nexts[(a + r)[i]] == Ptr(a + r, i + 1, shift, last)
  {
    var p, q := a + b + r, a + r;
    var k := if i < |a| then i else i + |b|;
    assert q[i] == p[k] && p[|a| - 1] == a[|a| - 1];
    assert t.nexts[p[k]] == Ptr(p, k + 1, shift, last);
    if i != |a| - 1 {
      assert p[k] != p[|a| - 1];
      assert i + 1 < |q| ==> q[i + 1] == p[k + 1];
    }
  }

  lemma CutEvolves(t: Table, a: seq<nat>, b: seq<nat>, r: seq<nat>, t': Table)
    requires t'.phase == t.phase && t'.hash == t.hash && |t.hash| == |t.phase| && |t'.heads| == |t.heads|
    requires AllDying(t, b)
    ensures Evolves(Moment(t, a + b + r), Moment(t', a + r))
  {
  }

  // Skipping the entries b between a and r: the last of a now points to r.
  lemma CutOk(home: nat, shift: nat, t: Table, a: seq<nat>, b: seq<nat>, r: seq<nat>)
    requires ChainOk(home, shift, t, a + b + r) && a != [] && AllDying(t, b)
    ensures a[|a| - 1] < t.Size()
    ensures var t' := t.(nexts := t.nexts[a[|a| - 1] := Ptr(r, 0, shift, MakeEnd(home, shift))]);
      ChainOk(home, shift, t', a + r) && Evolves(Moment(t, a + b + r), Moment(t', a + r))
  {
    hide Belong, Distinct, Occupied, AllDying, Evolves, Linked;
    ChainShape(home, shift, t, a + b + r);
    assert (a + b + r)[|a| - 1] == a[|a| - 1];
    var t' := t.(nexts := t.nexts[a[|a| - 1] := Ptr(r, 0, shift, MakeEnd(home, shift))]);
    CutMembers(home, shift, t, a, b, r);
    CutLinked(t, t.heads[home], shift, a, b, r, MakeEnd(home, shift), t');
    CutEvolves(t, a, b, r, t');
    SameMembers(home, shift, t, a + r, t');
  }

  lemma SameMembers(home: nat, shift: nat, t: Table, p: seq<nat>, t': Table)
    requires Belong(t, home, shift, p) && Occupied(t, p) && t'.hash == t.hash && t'.phase == t.phase
    ensures Belong(t', home, shift, p) && Occupied(t', p)
  {
    hide OnChain;
  }

  // Skipping the first entries b by redirecting the head.
  lemma CutHeadOk(home: nat, shift: nat, t: Table, b: seq<nat>, r: seq<nat>, l: Link)
    requires ChainOk(home, shift, t, b + r) && AllDying(t, b) && Plain(l) == Ptr(r, 0, shift, MakeEnd(home, shift))
    ensures var t' := t.(heads := t.heads[home := l]);
      ChainOk(home, shift, t', r) && Evolves(Moment(t, b + r), Moment(t', r))
  {
    hide Belong, Distinct, Occupied, AllDying, Evolves, Linked;
    ChainShape(home, shift, t, b + r);
    var t' := t.(heads := t.heads[home := l]);
    assert [] + b + r == b + r && [] + r == r;
    CutMembers(home, shift, t, [], b, r);
    CutEvolves(t, [], b, r, t');
    SameMembers(home, shift, t, r, t');
    TailLinked(t, t.heads[home], shift, b, r, MakeEnd(home, shift), l, t');
  }

  lemma TailLinked(t: Table, head: Link, shift: nat, b: seq<nat>, r: seq<nat>, last: Link, l: Link, t': Table)
    requires Linked(t, head, shift, b + r, last) && Plain(l) == Ptr(r, 0, shift, last) && t'.nexts == t.nexts
    ensures Linked(t', l, shift, r, last)
  {
    var p := b + r;
    forall i | 0 <= i < |r| ensures r[i] < |t'.nexts| && t'.nexts[r[i]] == Ptr(r, i + 1, shift, last) {
      assert r[i] == p[|b| + i];
      assert t.nexts[p[|b| + i]] == Ptr(p, |b| + i + 1, shift, last);
    }
  }

  // -- what a purge removed ---------------------------------------------------------------------------

  // p without the entries in `gone`, in the same order.
  function Without(p: seq<nat>, gone: set<nat>): seq<nat> {
    if p == [] then [] else (if p[0] in gone then [] else [p[0]]) + Without(p[1..], gone)
  }

  lemma {:induction false} WithoutTwice(p: seq<nat>, gone: set<nat>, more: set<nat>)
    ensures Without(Without(p, gone), more) == Without(p, gone + more)
  {
    if p != [] {
      var q := Without(p[1..], gone);
      WithoutTwice(p[1..], gone, more);
      if p[0] in gone { assert [] + q == q; } else { assert ([p[0]] + q)[1..] == q; }
    }
  }

  lemma {:induction false} WithoutNone(p: seq<nat>, gone: set<nat>)
    requires forall e :: e in p ==> e !in gone
    ensures Without(p, gone) == p
  {
    if p != [] {
      WithoutNone(p[1..], gone);
      assert [p[0]] + p[1..] == p;
    }
  }

  lemma {:induction false} WithoutAll(p: seq<nat>, gone: set<nat>)
    requires forall e :: e in p ==> e in gone
    ensures Without(p, gone) == []
  {
    if p != [] { WithoutAll(p[1..], gone); }
  }

  lemma {:induction false} WithoutConcat(p: seq<nat>, q: seq<nat>, gone: set<nat>)
    ensures Without(p + q, gone) == Without(p, gone) + Without(q, gone)
  {
    if p == [] {
      assert p + q == q;
    } else {
      WithoutConcat(p[1..], q, gone);
      assert (p + q)[0] == p[0] && (p + q)[1..] == p[1..] + q;
      var one, w, v := if p[0] in gone then [] else [p[0]], Without(p[1..], gone), Without(q, gone);
      assert Without(p + q, gone) == one + (w + v);
      assert one + (w + v) == (one + w) + v;
    }
  }

  function Entries(p: seq<nat>): set<nat> {
    set e | e in p
  }

  lemma DistinctParts(a: seq<nat>, b: seq<nat>, r: seq<nat>)
    requires Distinct(a + b + r)
    ensures forall i, k :: 0 <= i < |a| && 0 <= k < |b| ==> a[i] != b[k]
    ensures forall i, k :: 0 <= i < |r| && 0 <= k < |b| ==> r[i] != b[k]
  {
    var p := a + b + r;
    forall i, k | 0 <= i < |a| && 0 <= k < |b| ensures a[i] != b[k] {
      assert p[i] == a[i] && p[|a| + k] == b[k];
    }
    forall i, k | 0 <= i < |r| && 0 <= k < |b| ensures r[i] != b[k] {
      assert p[|a| + |b| + i] == r[i] && p[|a| + k] == b[k];
    }
  }

  lemma WithoutCut(a: seq<nat>, b: seq<nat>, r: seq<nat>)
    requires Distinct(a + b + r)
    ensures Without(a + b + r, Entries(b)) == a + r
  {
    hide Distinct, Without;
    DistinctParts(a, b, r);
    WithoutConcat(a + b, r, Entries(b));
    WithoutConcat(a, b, Entries(b));
    WithoutNone(a, Entries(b));
    WithoutAll(b, Entries(b));
    WithoutNone(r, Entries(b));
    assert a + [] == a;
  }

  // All that was ever linked, what was unlinked, and what is linked now.
  predicate Accounted(m: Moment, all: seq<nat>, gone: set<nat>) {
    && m.p == Without(all, gone)
    && forall e :: e in gone ==> e < |m.t.phase| && m.t.phase[e].Dying?
  }

  lemma AccountCut(m: Moment, m': Moment, all: seq<nat>, gone: set<nat>, a: seq<nat>, b: seq<nat>, r: seq<nat>)
    requires Accounted(m, all, gone) && m.p == a + b + r && Distinct(m.p) && AllDying(m.t, b)
    requires m'.p == a + r && m'.t.phase == m.t.phase
    ensures Accounted(m', all, gone + Entries(b))
  {
    WithoutTwice(all, gone, Entries(b));
    WithoutCut(a, b, r);
  }

  lemma AccountPush(m: Moment, m': Moment, all: seq<nat>, gone: set<nat>, more: seq<nat>)
    requires Accounted(m, all, gone) && m'.p == more + m.p && Evolves(m, m')
    requires forall e :: e in more ==> e < |m.t.phase| && m.t.phase[e].Free?
    ensures Accounted(m', more + all, gone)
  {
    WithoutConcat(more, all, gone);
    WithoutNone(more, gone);
  }

  // -- the purging thread -------------------------------------------------------------------------------

  predicate NewTo(t: Table, p: seq<nat>) {
    forall e :: e in p ==> e < |t.phase| && t.phase[e].Free?
  }

  predicate NotDying(t: Table, p: seq<nat>) {
    forall e :: e in p ==> e >= |t.phase| || !t.phase[e].Dying?
  }

  // The chain, as the scan sees it: entries inserted since the head was saved,
  // entries kept, entries to be unlinked, and entries not yet visited. What was
  // under construction when the purge began is not among those kept.
  predicate Scan(m0: Moment, m: Moment, ins: seq<nat>, kept: seq<nat>, doomed: seq<nat>, rest: seq<nat>) {
    && m.p == ins + kept + doomed + rest
    && AllDying(m.t, doomed) && NewTo(m0.t, ins) && NotDying(m0.t, kept)
  }

  // After more insertions.
  lemma ScanLater(m0: Moment, m: Moment, m': Moment, more: seq<nat>, ins: seq<nat>, kept: seq<nat>, doomed: seq<nat>,
                  rest: seq<nat>)
    requires Scan(m0, m, ins, kept, doomed, rest) && Evolves(m0, m) && Evolves(m, m') && m'.p == more + m.p
    requires NewTo(m.t, more)
    ensures Scan(m0, m', more + ins, kept, doomed, rest)
  {
    assert more + (ins + kept + doomed + rest) == more + ins + kept + doomed + rest;
  }

  // The locals of the loop: the pointer read last, the entry h to visit (-1 at the
  // end), the last entry kept (-1: none), whether entries are to be unlinked, the
  // saved head, and the evicted entries.
  datatype Cursor = Cursor(next: Link, h: int, prev: int, pending: bool, saved: Link, evicted: seq<nat>)

  class Purger {
    const home: nat
    const shift: nat
    const heads: array<Link>
    const nexts: array<Link>
    const hash: array<nat>
    const phase: array<Phase>
    var schedule: seq<seq<Action>>
    // the outcome of each clock update of a live entry: evict or not
    var clock: seq<bool>
    ghost var log: seq<Moment>
    ghost var all: seq<nat>
    ghost var gone: set<nat>

    constructor (home: nat, shift: nat, heads: array<Link>, nexts: array<Link>, hash: array<nat>, phase: array<Phase>,
                 schedule: seq<seq<Action>>, clock: seq<bool>, ghost p: seq<nat>)
      requires heads != nexts
      requires ChainOk(home, shift, Table(heads[..], nexts[..], hash[..], phase[..]), p)
      ensures this.home == home && this.shift == shift
      ensures this.heads == heads && this.nexts == nexts && this.hash == hash && this.phase == phase
      ensures Valid() && log == [Moment(Now(), p)] && all == p && gone == {}
    {
      this.home, this.shift, this.heads, this.nexts, this.hash, this.phase := home, shift, heads, nexts, hash, phase;
      this.schedule, this.clock := schedule, clock;
      log, all, gone := [Moment(Table(heads[..], nexts[..], hash[..], phase[..]), p)], p, {};
      WithoutNone(p, {});
    }

    function Now(): Table
      reads heads, nexts, hash, phase
    {
      Table(heads[..], nexts[..], hash[..], phase[..])
    }

    ghost function Last(): Moment
      requires log != []
      reads this
    {
      log[|log| - 1]
    }

    ghost predicate Valid()
      reads this, heads, nexts, hash, phase
    {
      && heads != nexts
      && log != [] && Last().t == Now()
      && History(home, shift, log)
      && Accounted(Last(), all, gone)
    }

    lemma ChainNow()
      requires Valid()
      ensures ChainOk(home, shift, Now(), Last().p) && Evolves(Last(), Last()) && Now().Valid() && home < heads.Length
    {
    }

    // Append the present state to the log.
    ghost method Record(p: seq<nat>, all': seq<nat>, gone': set<nat>)
      requires heads != nexts && log != [] && History(home, shift, log)
      requires ChainOk(home, shift, Now(), p) && Evolves(Last(), Moment(Now(), p))
      requires Accounted(Moment(Now(), p), all', gone')
      modifies `log, `all, `gone
      ensures Valid() && log == old(log) + [Moment(Now(), p)] && all == all' && gone == gone'
    {
      hide ChainOk, Evolves, History, Accounted;
      HistoryPush(home, shift, log, Moment(Now(), p));
      log, all, gone := log + [Moment(Now(), p)], all', gone';
    }

    // One step of another thread.
    method Perform(a: Action) returns (ghost more: seq<nat>)
      requires Valid()
      modifies heads, nexts, hash, phase, `log, `all, `gone
      ensures Valid() && old(log) <= log && Evolves(old(Last()), Last())
      ensures Last().p == more + old(Last().p) && all == more + old(all) && gone == old(gone) && NewTo(old(Now()), more)
      ensures home < heads.Length && LockedNotEnd(heads[home]) == old(LockedNotEnd(heads[home]))
    {
      hide ChainOk, Evolves, History, OnChain, Accounted, Without;
      ghost var m := Last();
      ChainNow();
      ActOk(home, shift, m.t, m.p, a);
      more := Arrivals(home, shift, m.t, a);
      match a {
        case Insert(x, h) =>
          if x < nexts.Length && phase[x].Free? && OnChain(home, shift, h) {
            var head := heads[home];
            hash[x], phase[x], nexts[x] := h, Live, Plain(head);
            heads[home] := Make(x, head.shift).(locked := LockedNotEnd(head));
          }
        case Retire(x) =>
          if x < nexts.Length && phase[x].Live? { phase[x] := Dying; }
      }
      assert Now() == Act(home, shift, m.t, a);
      AccountPush(m, Moment(Now(), more + m.p), all, gone, more);
      Record(more + m.p, more + all, gone);
    }

    // Everything that happens before the next access.
    method Interfere() returns (ghost more: seq<nat>)
      requires Valid()
      modifies heads, nexts, hash, phase, `log, `all, `gone, `schedule
      ensures Valid() && old(log) <= log && Evolves(old(Last()), Last())
      ensures Last().p == more + old(Last().p) && all == more + old(all) && gone == old(gone) && NewTo(old(Now()), more)
      ensures home < heads.Length && LockedNotEnd(heads[home]) == old(LockedNotEnd(heads[home]))
      ensures if old(schedule) == [] then schedule == [] && Now() == old(Now()) else |schedule| < old(|schedule|)
    {
      hide ChainOk, Evolves, History, OnChain, Accounted, Without, Now;
      ChainNow();
      more := [];
      assert [] + Last().p == Last().p && [] + all == all;
      if schedule == [] { return; }
      var batch := schedule[0];
      schedule := schedule[1..];
      for i := 0 to |batch|
        invariant Valid() && old(log) <= log && Evolves(old(Last()), Last()) && |schedule| < old(|schedule|)
        invariant Last().p == more + old(Last().p) && all == more + old(all) && gone == old(gone)
        invariant NewTo(old(Now()), more)
        invariant home < heads.Length && LockedNotEnd(heads[home]) == old(LockedNotEnd(heads[home]))
      {
        ghost var m := Last();
        ghost var some := Perform(batch[i]);
        EvolvesTrans(old(Last()), m, Last());
        NewToEarlier(old(Last()), m, some);
        assert some + (more + old(Last().p)) == some + more + old(Last().p);
        assert some + (more + old(all)) == some + more + old(all);
        more := some + more;
      }
    }

    // How far a scan from the saved head can still be disturbed.
    ghost function Fuel(saved: Link): nat
      reads this, heads
    {
      |schedule| + (if home < heads.Length && heads[home] == saved then 0 else 1)
    }

    // What every step of the purge keeps.
    twostate predicate Stepped(m0: Moment)
      reads this, heads, nexts, hash, phase
    {
      && old(log) != [] && Valid() && old(log) <= log
      && Evolves(m0, Last()) && Grown(old(all), old(gone), all, gone)
    }

    // Before each access: the scan after more insertions.
    method Await(saved: Link, ghost m0: Moment, ghost ins: seq<nat>, ghost kept: seq<nat>, ghost doomed: seq<nat>,
                 ghost rest: seq<nat>)
      returns (ghost ins': seq<nat>)
      requires Valid() && Scan(m0, Last(), ins, kept, doomed, rest) && Evolves(m0, Last())
      modifies heads, nexts, hash, phase, `log, `all, `gone, `schedule
      ensures Stepped(m0) && gone == old(gone) && Scan(m0, Last(), ins', kept, doomed, rest)
      ensures home < heads.Length && LockedNotEnd(heads[home]) == old(LockedNotEnd(heads[home]))
      ensures Fuel(saved) <= old(Fuel(saved)) && Evolves(old(Last()), Last())
    {
      hide ChainOk, Evolves, History, Accounted, Scan, NewTo, Suffix;
      ghost var m := Last();
      ghost var more := Interfere();
      ScanLater(m0, m, Last(), more, ins, kept, doomed, rest);
      EvolvesTrans(m0, m, Last());
      ins' := more + ins;
      SuffixPush(more, old(all));
    }

    // The clock update takes ownership of a live entry.
    method Evict(h: nat, ghost m0: Moment, ghost ins: seq<nat>, ghost kept: seq<nat>, ghost doomed: seq<nat>,
                 ghost rest: seq<nat>)
      requires Valid() && Scan(m0, Last(), ins, kept, doomed, rest) && Evolves(m0, Last()) && h < phase.Length
      requires phase[h].Live?
      modifies phase, `log, `all, `gone
      ensures Stepped(m0) && gone == old(gone) && Scan(m0, Last(), ins, kept, doomed, rest)
      ensures Evolves(old(Last()), Last()) && h < phase.Length && phase[h].Dying?
    {
      hide ChainOk, Evolves, History, Accounted, Scan, Suffix;
      ghost var m := Last();
      ChainNow();
      RetireOk(home, shift, m.t, m.p, h);
      phase[h] := Dying;
      assert Now() == m.t.(phase := m.t.phase[h := Dying]);
      assert [] + m.p == m.p && [] + all == all && [] + ins == ins;
      AccountPush(m, Moment(Now(), m.p), all, gone, []);
      Record(m.p, all, gone);
      EvolvesTrans(m0, m, Last());
      ScanLater(m0, m, Last(), [], ins, kept, doomed, rest);
      SuffixPush([], all);
    }

    // Decide about the entry h, the first of those not yet visited: is it under
    // construction, possibly because the clock update has just evicted it?
    method Visit(h: nat, isPurge: bool, saved: Link, ghost m0: Moment,
                 ghost ins: seq<nat>, ghost kept: seq<nat>, ghost doomed: seq<nat>, ghost rest: seq<nat>)
      returns (purgeable: bool, evict: bool, ghost ins': seq<nat>)
      requires Valid() && Scan(m0, Last(), ins, kept, doomed, rest) && Evolves(m0, Last()) && rest != [] && h == rest[0]
      modifies heads, nexts, hash, phase, `log, `all, `gone, `schedule, `clock
      ensures Stepped(m0) && gone == old(gone) && Scan(m0, Last(), ins', kept, doomed, rest)
      ensures home < heads.Length && LockedNotEnd(heads[home]) == old(LockedNotEnd(heads[home]))
      ensures Fuel(saved) <= old(Fuel(saved)) && Evolves(old(Last()), Last())
      ensures if purgeable then AllDying(Now(), [h]) else NotDying(Now(), [h])
      ensures evict ==> !isPurge && purgeable && NotDying(old(Now()), [h])
    {
      hide ChainOk, Evolves, History, Accounted, Scan, Suffix, AllDying, NotDying;
      ghost var m := Last();
      ins' := Await(saved, m0, ins, kept, doomed, rest);
      ScanHas(m0, Last(), ins', kept, doomed, rest);
      EntryNow(h);
      evict := false;
      if !isPurge && phase[h].Live? && clock != [] {
        evict := clock[0];
        clock := clock[1..];
      }
      if evict {
        ghost var m', all', gone' := Last(), all, gone;
        NotDyingBefore(m, m', h);
        Evict(h, m0, ins', kept, doomed, rest);
        EvolvesTrans(m, m', Last());
        GrownTrans(old(all), old(gone), all', gone', all, gone);
        ScanHas(m0, Last(), ins', kept, doomed, rest);
        EntryNow(h);
      }
      purgeable := !phase[h].Live?;
    }

    // Stitch: the last kept entry skips the doomed ones.
    method CutNext(prev: nat, next: Link, saved: Link, ghost m0: Moment,
                   ghost ins: seq<nat>, ghost kept: seq<nat>, ghost doomed: seq<nat>, ghost rest: seq<nat>)
      returns (ghost ins': seq<nat>)
      requires Valid() && Scan(m0, Last(), ins, kept, doomed, rest) && Evolves(m0, Last())
      requires kept != [] && prev == kept[|kept| - 1] && next == Ptr(rest, 0, shift, MakeEnd(home, shift))
      modifies heads, nexts, hash, phase, `log, `all, `gone, `schedule
      ensures Stepped(m0) && gone == old(gone) + Entries(doomed) && Scan(m0, Last(), ins', kept, [], rest)
      ensures home < heads.Length && LockedNotEnd(heads[home]) == old(LockedNotEnd(heads[home]))
      ensures Fuel(saved) <= old(Fuel(saved)) && Evolves(old(Last()), Last())
    {
      hide ChainOk, Evolves, History, Accounted, Suffix, AllDying, NotDying, NewTo, Distinct;
      ghost var m := Last();
      ins' := Await(saved, m0, ins, kept, doomed, rest);
      ghost var m', a := Last(), ins' + kept;
      assert m'.p == a + doomed + rest && a[|a| - 1] == prev;
      ChainNow();
      ChainShape(home, shift, m'.t, m'.p);
      CutOk(home, shift, m'.t, a, doomed, rest);
      nexts[prev] := next;
      assert Now() == m'.t.(nexts := m'.t.nexts[prev := next]);
      AccountCut(m', Moment(Now(), a + rest), all, gone, a, doomed, rest);
      Record(a + rest, all, gone + Entries(doomed));
      EvolvesTrans(m0, m', Last());
      EvolvesTrans(m, m', Last());
      assert a + [] + rest == a + rest;
      assert AllDying(Now(), []) by { NoneDying(Now()); }
    }

    // Without a kept entry the head has to skip the doomed ones, which fails if
    // an insertion got in between; then the scan starts over.
    method TryCutHead(next: Link, saved: Link, ghost m0: Moment, ghost ins: seq<nat>, ghost doomed: seq<nat>,
                      ghost rest: seq<nat>)
      returns (ok: bool, saved': Link)
      requires Valid() && Scan(m0, Last(), ins, [], doomed, rest) && Evolves(m0, Last())
      requires doomed != [] && Plain(saved) == Make(doomed[0], shift) && saved.locked
      requires next == Ptr(rest, 0, shift, MakeEnd(home, shift))
      requires home < heads.Length && LockedNotEnd(heads[home])
      modifies heads, nexts, hash, phase, `log, `all, `gone, `schedule
      ensures Stepped(m0) && Evolves(old(Last()), Last())
      ensures home < heads.Length && saved' == heads[home] && saved'.locked
      ensures LockedNotEnd(heads[home]) == !saved'.end
      ensures ok ==>
        gone == old(gone) + Entries(doomed) && Scan(m0, Last(), [], [], [], rest) && Fuel(saved') <= old(Fuel(saved))
      ensures ok ==> saved' == next.(locked := true)
      ensures !ok ==>
        gone == old(gone) && Last().p != [] && Plain(saved') == Make(Last().p[0], shift)
        && Fuel(saved') < old(Fuel(saved))
      ensures !ok ==> exists ins' :: Last().p == ins' + doomed + rest
    {
      hide ChainOk, Evolves, History, Accounted, Suffix, AllDying, NotDying, NewTo, Distinct;
      ghost var m := Last();
      ghost var ins' := Await(saved, m0, ins, [], doomed, rest);
      ghost var m' := Last();
      assert m'.p == ins' + doomed + rest by { assert ins' + [] == ins'; }
      ChainNow();
      HeadPtr(home, shift, m'.t, m'.p);
      ok := heads[home] == saved;
      if ok {
        ChainShape(home, shift, m'.t, m'.p);
        NothingBefore(ins', doomed, rest);
        assert m'.p == doomed + rest;
        saved' := next.(locked := true);
        CutHeadOk(home, shift, m'.t, doomed, rest, saved');
        heads[home] := saved';
        assert Now() == m'.t.(heads := m'.t.heads[home := saved']);
        assert [] + doomed + rest == doomed + rest && [] + rest == rest;
        AccountCut(m', Moment(Now(), rest), all, gone, [], doomed, rest);
        Record(rest, all, gone + Entries(doomed));
        EvolvesTrans(m0, m', Last());
        EvolvesTrans(m, m', Last());
        NoneDying(Now());
        NoneDying(m0.t);
      } else {
        saved' := heads[home];
      }
    }

    // Visit h and remember it if it was evicted.
    method VisitNext(h: nat, isPurge: bool, saved: Link, evicted: seq<nat>, ghost m0: Moment,
                     ghost ins: seq<nat>, ghost kept: seq<nat>, ghost doomed: seq<nat>, ghost rest: seq<nat>)
      returns (purgeable: bool, evicted': seq<nat>, ghost ins': seq<nat>)
      requires Valid() && Scan(m0, Last(), ins, kept, doomed, rest) && Evolves(m0, Last()) && rest != [] && h == rest[0]
      requires Evicted(m0, Last(), isPurge, gone, evicted, doomed, rest)
      modifies heads, nexts, hash, phase, `log, `all, `gone, `schedule, `clock
      ensures Stepped(m0) && Scan(m0, Last(), ins', kept, doomed, rest)
      ensures home < heads.Length && LockedNotEnd(heads[home]) == old(LockedNotEnd(heads[home]))
      ensures Fuel(saved) <= old(Fuel(saved))
      ensures Evicted(m0, Last(), isPurge, gone, evicted', doomed, rest)
      ensures if purgeable then AllDying(Now(), [h]) else NotDying(m0.t, [h]) && h !in evicted'
    {
      hide ChainOk, Evolves, History, Accounted, Suffix, AllDying, NotDying, Scan, Evicted;
      ghost var m := Last();
      var evict;
      purgeable, evict, ins' := Visit(h, isPurge, saved, m0, ins, kept, doomed, rest);
      EvictedLater(m0, m, Last(), isPurge, gone, evicted, doomed, rest);
      evicted' := evicted;
      if evict {
        NotDyingBoth(m0, m, h);
        EvictOnce(m0, m, Last(), isPurge, gone, evicted, doomed, rest, h);
        evicted' := evicted + [h];
      } else if !purgeable {
        NotDyingBoth(m0, Last(), h);
        NotEvicted(m0, Last(), isPurge, gone, evicted, doomed, rest, h);
      }
    }

    // The scan has met a live entry, or the end, behind doomed ones.
    method Stitch(prev: int, next: Link, saved: Link, isPurge: bool, ghost evicted: seq<nat>, ghost m0: Moment,
                  ghost ins: seq<nat>, ghost kept: seq<nat>, ghost doomed: seq<nat>, ghost rest: seq<nat>)
      returns (ok: bool, saved': Link, ghost ins': seq<nat>)
      requires Valid() && Scan(m0, Last(), ins, kept, doomed, rest) && Evolves(m0, Last())
      requires Evicted(m0, Last(), isPurge, gone, evicted, doomed, rest)
      requires prev == (if kept == [] then -1 else kept[|kept| - 1])
      requires next == Ptr(rest, 0, shift, MakeEnd(home, shift))
      requires doomed != [] && (kept == [] ==> Plain(saved) == Make(doomed[0], shift)) && saved.locked && !saved.end
      requires home < heads.Length && LockedNotEnd(heads[home])
      modifies heads, nexts, hash, phase, `log, `all, `gone, `schedule
      ensures Stepped(m0) && home < heads.Length && LockedNotEnd(heads[home]) == !saved'.end && saved'.locked
      ensures ok ==> Scan(m0, Last(), ins', kept, [], rest) && Evicted(m0, Last(), isPurge, gone, evicted, [], rest)
      ensures ok ==> Fuel(saved') <= old(Fuel(saved)) && Plain(saved') == if kept == [] then next else Plain(saved)
      ensures !ok ==>
        kept == [] && Fuel(saved') < old(Fuel(saved)) && Evicted(m0, Last(), isPurge, gone, evicted, [], Last().p)
      ensures !ok ==> Last().p != [] && Plain(saved') == Make(Last().p[0], shift)
    {
      hide ChainOk, Evolves, History, Accounted, Suffix, AllDying, NotDying, Scan, Evicted;
      ghost var m, was := Last(), gone;
      ok, saved', ins' := true, saved, [];
      if prev >= 0 {
        ins' := CutNext(prev, next, saved, m0, ins, kept, doomed, rest);
      } else {
        ok, saved' := TryCutHead(next, saved, m0, ins, doomed, rest);
      }
      EvictedLater(m0, m, Last(), isPurge, was, evicted, doomed, rest);
      if ok {
        EvictedCut(m0, Last(), isPurge, was, evicted, doomed, rest);
      } else {
        ghost var before :| Last().p == before + doomed + rest;
        EvictedRestart(m0, Last(), isPurge, gone, evicted, doomed, rest, before);
      }
    }

    // The loop invariant: where the locals of the scan point to.
    ghost predicate Scanning(isPurge: bool, c: Cursor, m0: Moment, ins: seq<nat>, kept: seq<nat>, doomed: seq<nat>,
                             rest: seq<nat>)
      requires log != []
      reads this, heads
    {
      && Scan(m0, Last(), ins, kept, doomed, rest) && Evolves(m0, Last())
      && Evicted(m0, Last(), isPurge, gone, c.evicted, doomed, rest)
      && home < heads.Length && LockedNotEnd(heads[home]) && !c.saved.end && c.saved.locked
      && c.prev == (if kept == [] then -1 else kept[|kept| - 1]) && c.pending == (doomed != [])
      && c.h == (if rest == [] then -1 else rest[0])
      && (c.pending ==> c.next == Ptr(rest, 0, shift, MakeEnd(home, shift)))
      && (kept == [] && doomed != [] ==> Plain(c.saved) == Make(doomed[0], shift))
      && (kept == [] && doomed == [] ==> rest != [] && Plain(c.saved) == Make(rest[0], shift))
    }

    // The end of the scan.
    ghost predicate Purged(isPurge: bool, c: Cursor, m0: Moment)
      requires log != []
      reads this, heads
    {
      && (forall e :: e in m0.p && e < |m0.t.phase| && m0.t.phase[e].Dying? ==> e !in Last().p)
      && (isPurge ==> c.evicted == []) && NotDying(m0.t, c.evicted) && Distinct(c.evicted)
      && (forall e :: e in c.evicted ==> e in gone)
      && home < heads.Length && LockedNotEnd(heads[home]) == !c.saved.end
    }

    // The entry at the cursor is live, or the end is reached: unlink what is
    // pending, which may mean to start over, and go on.
    method Settle(c: Cursor, isPurge: bool, ghost m0: Moment,
                  ghost ins: seq<nat>, ghost kept: seq<nat>, ghost doomed: seq<nat>, ghost rest: seq<nat>)
      returns (done: bool, c': Cursor, ghost ins': seq<nat>, ghost kept': seq<nat>, ghost doomed': seq<nat>,
          ghost rest': seq<nat>)
      requires Valid() && Scanning(isPurge, c, m0, ins, kept, doomed, rest)
      requires c.h >= 0 ==> NotDying(m0.t, [c.h]) && c.h !in c.evicted
      modifies heads, nexts, hash, phase, `log, `all, `gone, `schedule
      ensures Stepped(m0)
      ensures (if done then Purged(isPurge, c', m0) else Scanning(isPurge, c', m0, ins', kept', doomed', rest'))
      ensures !done ==>
        Fuel(c'.saved) < old(Fuel(c.saved)) || (Fuel(c'.saved) <= old(Fuel(c.saved)) && |rest'| < |rest|)
    {
      hide ChainOk, Evolves, History, Accounted, Suffix, AllDying, NotDying, Scan, Evicted, Distinct, Now, Grown;
      c', ins', kept', doomed', rest', done := c, ins, kept, doomed, rest, false;
      ghost var all', gone' := all, gone;
      HeadNow();
      GrownSame(all, gone);
      if c.pending {
        var ok, saved;
        ok, saved, ins' := Stitch(c.prev, c.next, c.saved, isPurge, c.evicted, m0, ins, kept, doomed, rest);
        doomed' := [];
        c' := c.(saved := saved, pending := false);
        all', gone' := all, gone;
        if !ok {
          c' := c'.(next := saved, h := saved.next);
          ins', rest' := [], Last().p;
          ScanStart(m0, Last());
          return;
        }
      }
      if c.h < 0 {
        ScanDone(m0, Last(), ins', kept);
        EvictedDone(m0, Last(), isPurge, gone, c.evicted);
        done := true;
        return;
      }
      ScanKeep(m0, Last(), ins', kept, rest);
      EvictedKeep(m0, Last(), isPurge, gone, c.evicted, rest);
      kept', rest' := kept + [c.h], rest[1..];
      var next;
      ins', next := LoadNext(c.h, c'.saved, isPurge, c.evicted, m0, ins', kept', [], rest');
      GrownTrans(old(all), old(gone), all', gone', all, gone);
      c' := c'.(prev := c.h, next := next, h := if next.end then -1 else next.next);
    }

    // One iteration.
    method Turn(c: Cursor, isPurge: bool, ghost m0: Moment,
                ghost ins: seq<nat>, ghost kept: seq<nat>, ghost doomed: seq<nat>, ghost rest: seq<nat>)
      returns (done: bool, c': Cursor, ghost ins': seq<nat>, ghost kept': seq<nat>, ghost doomed': seq<nat>,
          ghost rest': seq<nat>)
      requires Valid() && Scanning(isPurge, c, m0, ins, kept, doomed, rest)
      modifies heads, nexts, hash, phase, `log, `all, `gone, `schedule, `clock
      ensures Stepped(m0)
      ensures (if done then Purged(isPurge, c', m0) else Scanning(isPurge, c', m0, ins', kept', doomed', rest'))
      ensures !done ==>
        Fuel(c'.saved) < old(Fuel(c.saved)) || (Fuel(c'.saved) <= old(Fuel(c.saved)) && |rest'| < |rest|)
    {
      hide ChainOk, Evolves, History, Accounted, Suffix, AllDying, NotDying, Scan, Evicted, Distinct, Now, Grown;
      hide Purged;
      c', ins', kept', doomed', rest', done := c, ins, kept, doomed, rest, false;
      if c.h < 0 {
        done, c', ins', kept', doomed', rest' := Settle(c, isPurge, m0, ins, kept, doomed, rest);
        return;
      }
      var purgeable, evicted;
      purgeable, evicted, ins' := VisitNext(c.h, isPurge, c.saved, c.evicted, m0, ins, kept, doomed, rest);
      c' := c.(evicted := evicted);
      ghost var all', gone' := all, gone;
      if purgeable {
        ScanDoom(m0, Last(), ins', kept, doomed, rest);
        EvictedDoom(m0, Last(), isPurge, gone, evicted, doomed, rest);
        doomed', rest' := doomed + [c.h], rest[1..];
        var next;
        ins', next := LoadNext(c.h, c.saved, isPurge, evicted, m0, ins', kept, doomed', rest');
        c' := c'.(pending := true, next := next, h := if next.end then -1 else next.next);
      } else {
        done, c', ins', kept', doomed', rest' := Settle(c', isPurge, m0, ins', kept, doomed, rest);
      }
      GrownTrans(old(all), old(gone), all', gone', all, gone);
    }

    // PurgeImplLocked: purge only, or clock-update the whole chain as well. The
    // result is the list of entries that the clock update evicted.
    method Run(isPurge: bool, lock: Link) returns (evicted: seq<nat>, saved: Link)
      requires Valid() && home < heads.Length && heads[home] == lock && LockedNotEnd(lock)
      modifies heads, nexts, hash, phase, `log, `all, `gone, `schedule, `clock
      // a proper chain at every moment, from which only dying entries disappear
      ensures Valid() && old(log) <= log && Evolves(old(Last()), Last())
      // the chain is what was ever linked, in order, without what was unlinked
      ensures Grown(old(all), old(gone), all, gone)
      // whatever was under construction at the start is unlinked
      ensures forall e :: e in old(Last().p) && e < |old(Now()).phase| && old(Now()).phase[e].Dying? ==> e !in Last().p
      // evicted entries were not, are evicted once, and are unlinked
      ensures isPurge ==> evicted == []
      ensures NotDying(old(Now()), evicted) && Distinct(evicted) && forall e :: e in evicted ==> e in gone
      // the lock is still held unless the chain was emptied
      ensures home < heads.Length && LockedNotEnd(heads[home]) == !saved.end
    {
      hide ChainOk, Evolves, History, Accounted, Suffix, AllDying, NotDying, Scan, Evicted, Distinct, Now, Grown;
      ghost var m0 := Last();
      HeadNow();
      ghost var ins: seq<nat>, kept: seq<nat>, doomed: seq<nat>, rest := [], [], [], m0.p;
      ScanStart(m0, m0);
      EvictedNone(m0, isPurge, gone);
      GrownSame(all, gone);
      var c, done := Cursor(lock, lock.next, -1, false, lock, []), false;
      while !done
        invariant Stepped(m0)
        invariant if done then Purged(isPurge, c, m0) else Scanning(isPurge, c, m0, ins, kept, doomed, rest)
        decreases !done, Fuel(c.saved), |rest|
      {
        hide Scanning, Purged;
        ghost var all', gone' := all, gone;
        done, c, ins, kept, doomed, rest := Turn(c, isPurge, m0, ins, kept, doomed, rest);
        GrownTrans(old(all), old(gone), all', gone', all, gone);
      }
      evicted, saved := c.evicted, c.saved;
    }

    // Read the pointer of the entry just visited.
    method LoadNext(h: nat, saved: Link, isPurge: bool, ghost evicted: seq<nat>, ghost m0: Moment,
                    ghost ins: seq<nat>, ghost kept: seq<nat>, ghost doomed: seq<nat>, ghost rest: seq<nat>)
      returns (ghost ins': seq<nat>, next: Link)
      requires Valid() && Scan(m0, Last(), ins, kept, doomed, rest) && Evolves(m0, Last())
      requires Evicted(m0, Last(), isPurge, gone, evicted, doomed, rest)
      requires if doomed == [] then kept != [] && h == kept[|kept| - 1] else h == doomed[|doomed| - 1]
      modifies heads, nexts, hash, phase, `log, `all, `gone, `schedule
      ensures Stepped(m0) && gone == old(gone) && Scan(m0, Last(), ins', kept, doomed, rest)
      ensures Evicted(m0, Last(), isPurge, gone, evicted, doomed, rest)
      ensures home < heads.Length && LockedNotEnd(heads[home]) == old(LockedNotEnd(heads[home]))
      ensures Fuel(saved) <= old(Fuel(saved)) && next == Ptr(rest, 0, shift, MakeEnd(home, shift))
    {
      hide ChainOk, Evolves, History, Accounted, Suffix, AllDying, NotDying, Scan, Evicted;
      ghost var m := Last();
      ins' := Await(saved, m0, ins, kept, doomed, rest);
      EvictedLater(m0, m, Last(), isPurge, gone, evicted, doomed, rest);
      ChainNow();
      NextPtr(home, shift, m0, Last(), ins', kept, doomed, rest, h);
      next := nexts[h];
    }

    lemma HeadNow()
      requires Valid()
      ensures home < heads.Length && Plain(heads[home]) == Ptr(Last().p, 0, shift, MakeEnd(home, shift))
      ensures Evolves(Last(), Last())
    {
      ChainNow();
      HeadPtr(home, shift, Now(), Last().p);
    }

    lemma EntryNow(h: nat)
      requires Valid() && h in Last().p
      ensures h < nexts.Length == phase.Length && !phase[h].Free?
      ensures phase[h].Live? ==> NotDying(Now(), [h])
      ensures phase[h].Dying? ==> AllDying(Now(), [h])
    {
    }
  }

  lemma ScanStart(m0: Moment, m: Moment)
    ensures Scan(m0, m, [], [], [], m.p)
  {
    assert [] + [] + [] + m.p == m.p;
  }

  // An entry found under construction.
  lemma ScanDoom(m0: Moment, m: Moment, ins: seq<nat>, kept: seq<nat>, doomed: seq<nat>, rest: seq<nat>)
    requires Scan(m0, m, ins, kept, doomed, rest) && rest != [] && AllDying(m.t, [rest[0]])
    ensures Scan(m0, m, ins, kept, doomed + [rest[0]], rest[1..])
  {
    assert [rest[0]] + rest[1..] == rest;
    assert ins + kept + (doomed + [rest[0]]) + rest[1..] == ins + kept + doomed + ([rest[0]] + rest[1..]);
    assert [rest[0]][0] == rest[0];
  }

  // An entry found live.
  lemma ScanKeep(m0: Moment, m: Moment, ins: seq<nat>, kept: seq<nat>, rest: seq<nat>)
    requires Scan(m0, m, ins, kept, [], rest) && rest != [] && NotDying(m0.t, [rest[0]])
    ensures Scan(m0, m, ins, kept + [rest[0]], [], rest[1..])
  {
    assert [rest[0]] + rest[1..] == rest;
    assert ins + (kept + [rest[0]]) + [] + rest[1..] == ins + kept + [] + ([rest[0]] + rest[1..]);
    assert rest[0] in [rest[0]];
  }

  // At the end of the chain nothing is left that was under construction.
  lemma ScanDone(m0: Moment, m: Moment, ins: seq<nat>, kept: seq<nat>)
    requires Scan(m0, m, ins, kept, [], [])
    ensures forall e :: e in m0.p && e < |m0.t.phase| && m0.t.phase[e].Dying? ==> e !in m.p
  {
    assert m.p == ins + kept;
  }

  // What was evicted so far: it was not under construction at the start, is now,
  // and is unlinked or will be.
  predicate Evicted(m0: Moment, m: Moment, isPurge: bool, gone: set<nat>, evicted: seq<nat>, doomed: seq<nat>,
                    rest: seq<nat>) {
    && AllDying(m.t, evicted) && NotDying(m0.t, evicted) && Distinct(evicted) && (isPurge ==> evicted == [])
    && forall e :: e in evicted ==> e in gone || e in doomed || e in rest
  }

  lemma EvictedNone(m: Moment, isPurge: bool, gone: set<nat>)
    ensures Evicted(m, m, isPurge, gone, [], [], m.p)
  {
  }

  lemma EvictedLater(m0: Moment, m: Moment, m': Moment, isPurge: bool, gone: set<nat>, evicted: seq<nat>,
                     doomed: seq<nat>, rest: seq<nat>)
    requires Evicted(m0, m, isPurge, gone, evicted, doomed, rest) && Evolves(m, m')
    ensures Evicted(m0, m', isPurge, gone, evicted, doomed, rest)
  {
  }

  lemma EvictOnce(m0: Moment, m: Moment, m': Moment, isPurge: bool, gone: set<nat>, evicted: seq<nat>, doomed: seq<nat>,
                  rest: seq<nat>, h: nat)
    requires Evicted(m0, m, isPurge, gone, evicted, doomed, rest)
    requires Evicted(m0, m', isPurge, gone, evicted, doomed, rest)
    requires !isPurge && h in rest && NotDying(m.t, [h]) && NotDying(m0.t, [h]) && AllDying(m'.t, [h])
    ensures Evicted(m0, m', isPurge, gone, evicted + [h], doomed, rest)
  {
    assert h in [h] && [h][0] == h;
  }

  lemma NotEvicted(m0: Moment, m: Moment, isPurge: bool, gone: set<nat>, evicted: seq<nat>, doomed: seq<nat>,
                   rest: seq<nat>, h: nat)
    requires Evicted(m0, m, isPurge, gone, evicted, doomed, rest) && NotDying(m.t, [h])
    ensures h !in evicted
  {
    assert h in [h];
  }

  lemma EvictedDoom(m0: Moment, m: Moment, isPurge: bool, gone: set<nat>, evicted: seq<nat>, doomed: seq<nat>,
                    rest: seq<nat>)
    requires Evicted(m0, m, isPurge, gone, evicted, doomed, rest) && rest != []
    ensures Evicted(m0, m, isPurge, gone, evicted, doomed + [rest[0]], rest[1..])
  {
    assert rest == [rest[0]] + rest[1..];
  }

  lemma EvictedKeep(m0: Moment, m: Moment, isPurge: bool, gone: set<nat>, evicted: seq<nat>, rest: seq<nat>)
    requires Evicted(m0, m, isPurge, gone, evicted, [], rest) && rest != [] && rest[0] !in evicted
    ensures Evicted(m0, m, isPurge, gone, evicted, [], rest[1..])
  {
    assert rest == [rest[0]] + rest[1..];
  }

  lemma EvictedCut(m0: Moment, m: Moment, isPurge: bool, gone: set<nat>, evicted: seq<nat>, doomed: seq<nat>,
                   rest: seq<nat>)
    requires Evicted(m0, m, isPurge, gone, evicted, doomed, rest)
    ensures Evicted(m0, m, isPurge, gone + Entries(doomed), evicted, [], rest)
  {
  }

  lemma EvictedRestart(m0: Moment, m: Moment, isPurge: bool, gone: set<nat>, evicted: seq<nat>, doomed: seq<nat>,
                       rest: seq<nat>, before: seq<nat>)
    requires Evicted(m0, m, isPurge, gone, evicted, doomed, rest) && m.p == before + doomed + rest
    ensures Evicted(m0, m, isPurge, gone, evicted, [], m.p)
  {
  }

  lemma EvictedDone(m0: Moment, m: Moment, isPurge: bool, gone: set<nat>, evicted: seq<nat>)
    requires Evicted(m0, m, isPurge, gone, evicted, [], [])
    ensures NotDying(m0.t, evicted) && Distinct(evicted) && (isPurge ==> evicted == [])
    ensures forall e :: e in evicted ==> e in gone
  {
  }

  lemma NotDyingBoth(m0: Moment, m: Moment, h: nat)
    requires Evolves(m0, m) && NotDying(m.t, [h])
    ensures NotDying(m0.t, [h])
  {
    assert h in [h];
  }

  // The pointer of the entry just visited leads to those not yet visited.
  lemma NextPtr(home: nat, shift: nat, m0: Moment, m: Moment, ins: seq<nat>, kept: seq<nat>, doomed: seq<nat>,
                rest: seq<nat>, h: nat)
    requires ChainOk(home, shift, m.t, m.p) && Scan(m0, m, ins, kept, doomed, rest)
    requires if doomed == [] then kept != [] && h == kept[|kept| - 1] else h == doomed[|doomed| - 1]
    ensures h < m.t.Size() && m.t.nexts[h] == Ptr(rest, 0, shift, MakeEnd(home, shift))
  {
    hide OnChain;
    var i := |ins| + |kept| + |doomed| - 1;
    assert m.p[i] == h;
    assert m.t.nexts[m.p[i]] == Ptr(m.p, i + 1, shift, MakeEnd(home, shift));
  }

  lemma NoneDying(t: Table)
    ensures AllDying(t, []) && NotDying(t, []) && NewTo(t, [])
  {
  }

  lemma HeadPtr(home: nat, shift: nat, t: Table, p: seq<nat>)
    requires ChainOk(home, shift, t, p)
    ensures Plain(t.heads[home]) == Ptr(p, 0, shift, MakeEnd(home, shift))
  {
  }

  // If the chain starts with the first doomed entry, nothing was inserted.
  lemma NothingBefore(ins: seq<nat>, doomed: seq<nat>, rest: seq<nat>)
    requires Distinct(ins + doomed + rest) && doomed != [] && (ins + doomed + rest)[0] == doomed[0]
    ensures ins == []
  {
    assert (ins + doomed + rest)[|ins|] == doomed[0];
  }

  lemma ScanHas(m0: Moment, m: Moment, ins: seq<nat>, kept: seq<nat>, doomed: seq<nat>, rest: seq<nat>)
    requires Scan(m0, m, ins, kept, doomed, rest) && rest != []
    ensures rest[0] in m.p
  {
    assert m.p[|ins| + |kept| + |doomed|] == rest[0];
  }

  // Entries are only added in front; what is unlinked stays so.
  predicate Grown(all: seq<nat>, gone: set<nat>, all': seq<nat>, gone': set<nat>) {
    Suffix(all, all') && gone <= gone'
  }

  lemma GrownSame(all: seq<nat>, gone: set<nat>)
    ensures Grown(all, gone, all, gone)
  {
  }

  lemma GrownTrans(all: seq<nat>, gone: set<nat>, all': seq<nat>, gone': set<nat>, all'': seq<nat>, gone'': set<nat>)
    requires Grown(all, gone, all', gone') && Grown(all', gone', all'', gone'')
    ensures Grown(all, gone, all'', gone'')
  {
  }

  lemma SuffixPush(more: seq<nat>, p: seq<nat>)
    ensures Suffix(p, more + p)
  {
  }

  lemma NotDyingBefore(m: Moment, m': Moment, h: nat)
    requires Evolves(m, m') && h < |m'.t.phase| && m'.t.phase[h].Live?
    ensures NotDying(m.t, [h])
  {
  }

  lemma NewToEarlier(m: Moment, m': Moment, p: seq<nat>)
    requires Evolves(m, m') && NewTo(m'.t, p)
    ensures NewTo(m.t, p)
  {
  }
}
