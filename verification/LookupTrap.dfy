// The converse: in every state of a split in which the trap is set, the split can
// proceed and a lookup can be timed so that it reports a miss although the entry is live
// and linked all the time.
module LookupTrap {
  import opened Probing
  import opened ChainModel
  import opened ChainSplit
  import opened SplitForGrow
  import opened LookupDuringSplit

  // -- what the split does next -----------------------------------------------------------------

  // The head of the new home is stored,
  function Stored(job: Job, m: Moment): Moment
    requires m.v.Before? && Describes(job, m.t, m.v)
  {
    var bits := BitsOf(job, m.t, m.v.c);
    var head := NewLink(job, m.v.c, true, NextOf(bits, true, 0)).(locked := true);
    Moment(m.t.(heads := m.t.heads[job.growHome := head]), m.v)
  }

  // the old head is swung,
  function Swung(job: Job, m: Moment): Moment
    requires m.v.Before? && Describes(job, m.t, m.v)
  {
    var bits := BitsOf(job, m.t, m.v.c);
    var head := NewLink(job, m.v.c, false, NextOf(bits, false, 0)).(locked := true);
    Moment(m.t.(heads := m.t.heads[job.oldHome := head]), BigStepView(job, m.t, m.v.c))
  }

  predicate GrowHeadStored(job: Job, m: Moment)
    requires m.v.Before? && Describes(job, m.t, m.v)
  {
    Plain(m.t.heads[job.growHome]) == NewLink(job, m.v.c, true, NextOf(BitsOf(job, m.t, m.v.c), true, 0))
  }

  // and each pointer write advances the earlier frontier.
  function Written(job: Job, m: Moment, bit: bool): Moment
    requires m.v.After? && Describes(job, m.t, m.v) && m.v.Frontier(bit) < m.v.Frontier(!bit)
  {
    var f := m.v.Frontier(bit);
    var next := NextOf(m.v.bits, bit, f + 1);
    Moment(m.t.(nexts := m.t.nexts[m.v.c[f] := NewLink(job, m.v.c, bit, next)]), MoveFrontier(m.v, bit, next))
  }

  predicate IsWrite(job: Job, m: Moment, m': Moment)
    requires Describes(job, m.t, m.v)
  {
    if m.v.Before? then m' == Stored(job, m) || (GrowHeadStored(job, m) && m' == Swung(job, m))
    else exists bit :: m.v.Frontier(bit) < m.v.Frontier(!bit) && m' == Written(job, m, bit)
  }

  // Another thread inserts an entry or starts to erase one.
  ghost predicate IsAct(job: Job, m: Moment, m': Moment)
    requires Describes(job, m.t, m.v)
  {
    exists a :: m' == Moment(Act(job, m.t, a), ActView(job, m.t, m.v, a))
  }

  // The split proceeds from m, alone or with other threads at work.
  ghost predicate Proceeds(job: Job, m: Moment, log: seq<Moment>, alone: bool) {
    && log != [] && log[0] == m && History(job, log)
    && forall k :: 0 <= k < |log| - 1 ==>
         Describes(job, log[k].t, log[k].v) &&
         (IsWrite(job, log[k], log[k + 1]) || (!alone && IsAct(job, log[k], log[k + 1])))
  }

  lemma ProceedsOne(job: Job, m: Moment, alone: bool)
    requires Describes(job, m.t, m.v)
    ensures Proceeds(job, m, [m], alone)
  {
  }

  lemma ProceedsMore(job: Job, m: Moment, log: seq<Moment>, alone: bool, next: Moment)
    requires Proceeds(job, m, log, alone) && Describes(job, next.t, next.v)
    requires var last := log[|log| - 1];
      && Describes(job, last.t, last.v) && Later(last.v, next.v) && Keeps(last.t, next.t)
      && (IsWrite(job, last, next) || (!alone && IsAct(job, last, next)))
    ensures Proceeds(job, m, log + [next], alone)
  {
    hide Describes, Later, Keeps, IsWrite, IsAct;
    HistoryPush(job, log, next);
    var longer := log + [next];
    forall k | 0 <= k < |longer| - 1
      ensures Describes(job, longer[k].t, longer[k].v)
      ensures IsWrite(job, longer[k], longer[k + 1]) || (!alone && IsAct(job, longer[k], longer[k + 1]))
    {
      assert longer[k] == log[k];
      if k < |log| - 1 { assert longer[k + 1] == log[k + 1]; }
    }
  }

  // -- what the writes leave alone ------------------------------------------------------------------

  predicate SameEntries(m: Moment, m': Moment) {
    && m'.t.phase == m.t.phase && m'.t.hash == m.t.hash && |m'.t.nexts| == |m.t.nexts| && m'.v.c == m.v.c
    && (m.v.After? ==>
         m'.v.After? && m'.v.bits == m.v.bits && m'.v.ins0 == m.v.ins0 && m'.v.ins1 == m.v.ins1)
    && (m.v.Before? && m'.v.After? ==> m'.v.ins0 == [] && m'.v.ins1 == [])
  }

  lemma WriteSame(job: Job, m: Moment, m': Moment)
    requires Describes(job, m.t, m.v) && IsWrite(job, m, m')
    ensures SameEntries(m, m')
  {
    hide NextOf, OnChain, HeadOk, BitOf, Pow2;
    if m.v.Before? { BeforeShape(job, m.t, m.v); } else { ChainShape(job, m.t, m.v); }
  }

  lemma BeforeShape(job: Job, t: Table, v: View)
    requires v.Before? && Describes(job, t, v)
    ensures InTable(t, v.c) && t.Valid() && job.Ok(t.Size()) && Distinct(v.c)
  {
  }

  lemma {:induction false} AloneSame(job: Job, m: Moment, log: seq<Moment>, k: nat)
    requires Proceeds(job, m, log, true) && k < |log|
    ensures SameEntries(m, log[k])
    decreases k
  {
    hide History, IsWrite, Describes, IsAct;
    if k > 0 {
      AloneSame(job, m, log, k - 1);
      WriteSame(job, log[k - 1], log[k - 1 + 1]);
    }
  }

  // -- the split can go on -----------------------------------------------------------------------------

  lemma StoredOk(job: Job, m: Moment)
    requires m.v.Before? && Describes(job, m.t, m.v)
    ensures var m' := Stored(job, m);
      Describes(job, m'.t, m'.v) && Later(m.v, m'.v) && Keeps(m.t, m'.t) && GrowHeadStored(job, m')
  {
    hide Describes, NextOf, Later, BitsOf;
    BeforeShape(job, m.t, m.v);
    var bits := BitsOf(job, m.t, m.v.c);
    var head := NewLink(job, m.v.c, true, NextOf(bits, true, 0)).(locked := true);
    StoreGrowHead(job, m.t, m.v.c, head);
    LaterSame(m.v);
    SameBits(job, m.t, Stored(job, m).t, m.v.c);
  }

  lemma SameBits(job: Job, t: Table, t': Table, c: seq<nat>)
    requires InTable(t, c) && t.Valid() && InTable(t', c) && t'.Valid() && t'.hash == t.hash
    ensures BitsOf(job, t', c) == BitsOf(job, t, c)
  {
    hide BitOf;
  }

  lemma SwungOk(job: Job, m: Moment)
    requires m.v.Before? && Describes(job, m.t, m.v) && GrowHeadStored(job, m)
    ensures var m' := Swung(job, m); Describes(job, m'.t, m'.v) && Later(m.v, m'.v) && Keeps(m.t, m'.t)
  {
    hide Describes, NextOf, BitsOf;
    BeforeShape(job, m.t, m.v);
    var bits := BitsOf(job, m.t, m.v.c);
    BigStep(job, m.t, m.v.c, NewLink(job, m.v.c, false, NextOf(bits, false, 0)).(locked := true));
  }

  lemma WriteOk(job: Job, m: Moment, bit: bool)
    requires m.v.After? && Describes(job, m.t, m.v) && m.v.Frontier(bit) < m.v.Frontier(!bit)
    ensures var m' := Written(job, m, bit);
      Describes(job, m'.t, m'.v) && Later(m.v, m'.v) && Keeps(m.t, m'.t)
  {
    hide Describes, NextOf;
    AdvanceFrontier(job, m.t, m.v, bit);
    EarlierFrontier(job, m.t, m.v, bit);
    ChainShape(job, m.t, m.v);
  }

  lemma ChainShape(job: Job, t: Table, v: View)
    requires v.After? && Describes(job, t, v)
    ensures |v.c| == |v.bits| && InTable(t, v.c) && t.Valid() && FrontiersOk(v) && Distinct(v.c)
    ensures v.zero <= |v.c| && v.one <= |v.c|
  {
    hide Pow2, BitOf, OnChain, HeadOk;
    OriginalDistinct(v);
  }

  // The split gets to the state in which the frontier of chain `bit` is at n.
  lemma {:induction false} ReachFrontier(job: Job, m: Moment, log: seq<Moment>, alone: bool, bit: bool, n: nat)
    returns (log': seq<Moment>)
    requires Proceeds(job, m, log, alone)
    requires var last := log[|log| - 1];
      && last.v.After? && |last.v.c| == |last.v.bits|
      && last.v.Frontier(bit) <= n < |last.v.c| && last.v.bits[n] == bit
    ensures Proceeds(job, m, log', alone) && log <= log'
    ensures forall k :: |log| - 1 <= k < |log'| ==> SameEntries(log[|log| - 1], log'[k])
    ensures var v := log'[|log'| - 1].v; v.After? && v.Frontier(bit) == n
    decreases var v := log[|log| - 1].v; 2 * |v.c| + 2 - v.zero - v.one
  {
    hide Describes, IsWrite, IsAct, Later, Keeps, NextOf, History;
    var last := log[|log| - 1];
    if last.v.Frontier(bit) == n {
      log' := log;
    } else {
      LogShape(job, log);
      var b := if last.v.Frontier(bit) < last.v.Frontier(!bit) then bit else !bit;
      WriteOk(job, last, b);
      var next := Written(job, last, b);
      WriteIs(job, last, b);
      WriteSame(job, last, next);
      ProceedsMore(job, m, log, alone, next);
      log' := ReachFrontier(job, m, log + [next], alone, bit, n);
    }
  }

  lemma LogShape(job: Job, log: seq<Moment>)
    requires log != [] && History(job, log) && log[|log| - 1].v.After?
    ensures var last := log[|log| - 1];
      && Describes(job, last.t, last.v) && |last.v.c| == |last.v.bits| && FrontiersOk(last.v)
      && last.v.zero <= |last.v.c| && last.v.one <= |last.v.c|
  {
    hide Describes;
    ChainShape(job, log[|log| - 1].t, log[|log| - 1].v);
  }

  lemma WriteIs(job: Job, m: Moment, bit: bool)
    requires m.v.After? && Describes(job, m.t, m.v) && m.v.Frontier(bit) < m.v.Frontier(!bit)
    ensures IsWrite(job, m, Written(job, m, bit))
  {
    hide Describes, NextOf;
  }

  // -- the reader, step by step ---------------------------------------------------------------------

  // A reader of the chain of `hash` that knows the new shift and reads entry e next.
  predicate On(job: Job, hash: nat, r: Reader, e: int) {
    r.Walking? && r.home == job.Home(BitOf(job, hash)) && r.shift == job.shift + 1 && r.at == e
  }

  // n iterations at one moment.
  function Steps(m: Moment, r: Reader, hash: nat, x: nat, n: nat): Reader
    requires m.t.Valid()
    decreases n
  {
    if n == 0 then r else Steps(m, Iterate(r, hash, {x}, m.t, m.t), hash, x, n - 1)
  }

  lemma {:induction false} StepsMore(m: Moment, r: Reader, hash: nat, x: nat, a: nat, b: nat)
    requires m.t.Valid()
    ensures Steps(m, r, hash, x, a + b) == Steps(m, Steps(m, r, hash, x, a), hash, x, b)
    decreases a
  {
    hide Iterate;
    if a > 0 { StepsMore(m, Iterate(r, hash, {x}, m.t, m.t), hash, x, a - 1, b); }
  }

  // It starts with the old shift; the head sends it to the new home.
  lemma StepRestart(job: Job, m: Moment, x: nat, hash: nat)
    requires m.v.After? && Describes(job, m.t, m.v) && m.t.Valid() && OnChain(job.oldHome, job.shift, hash)
    ensures Iterate(Walking(job.oldHome, job.shift, -1, -1), hash, {x}, m.t, m.t)
      == Walking(job.Home(BitOf(job, hash)), job.shift + 1, -1, -1)
  {
    hide Describes;
    DescribesShape(job, m.t, m.v);
    HeadsShift(job, m.t, m.v);
    HomeBit(job, m.t.Size(), hash);
  }

  // A migrated pointer of its own chain takes it to e.
  lemma StepOwn(job: Job, m: Moment, x: nat, hash: nat, r: Reader, e: nat)
    requires m.v.After? && Describes(job, m.t, m.v) && m.t.Valid() && r.Walking? && On(job, hash, r, r.at)
    requires r.at < m.t.Size() && r.home < m.t.Size() && Plain(Pointer(r, m.t)) == Make(e, job.shift + 1)
    requires e != x && e < m.t.Size() && Own(job, m.t, BitOf(job, hash), e)
    ensures On(job, hash, Iterate(r, hash, {x}, m.t, m.t), e)
  {
    hide Describes, BitOf, OnChain;
  }

  // From the head, or from an inserted entry, to the first original entry of its chain.
  lemma {:induction false} WalkInserted(job: Job, m: Moment, x: nat, hash: nat, r: Reader, k: nat)
    returns (n: nat, r': Reader)
    requires m.v.After? && Describes(job, m.t, m.v) && m.t.Valid() && |m.v.bits| == |m.v.c|
    requires var bit := BitOf(job, hash); x !in m.v.Ins(bit) && k <= |m.v.Ins(bit)|
    requires var bit := BitOf(job, hash); On(job, hash, r, if k == 0 then -1 else m.v.Ins(bit)[k - 1])
    requires var a := NextOf(m.v.bits, BitOf(job, hash), 0); a < |m.v.c| && m.v.c[a] != x
    ensures Steps(m, r, hash, x, n) == r' && On(job, hash, r', m.v.c[NextOf(m.v.bits, BitOf(job, hash), 0)])
    decreases |m.v.Ins(BitOf(job, hash))| - k
  {
    hide Describes, BitOf, OnChain, NextOf, HeadOk, Iterate;
    var bit := BitOf(job, hash);
    InsertedLink(job, m.t, m.v, bit, k);
    var next := Iterate(r, hash, {x}, m.t, m.t);
    if k < |m.v.Ins(bit)| {
      InsertedOwn(job, m.t, m.v, bit, k);
      StepOwn(job, m, x, hash, r, m.v.Ins(bit)[k]);
      n, r' := WalkInserted(job, m, x, hash, next, k + 1);
      n := n + 1;
    } else {
      var a := NextOf(m.v.bits, bit, 0);
      OriginalOwn(job, m.t, m.v, a);
      StepOwn(job, m, x, hash, r, m.v.c[a]);
      n, r' := 1, next;
      assert Steps(m, next, hash, x, 0) == next;
    }
  }

  lemma InsertedOwn(job: Job, t: Table, v: View, bit: bool, k: nat)
    requires v.After? && Describes(job, t, v) && k < |v.Ins(bit)|
    ensures v.Ins(bit)[k] < t.Size() && Own(job, t, bit, v.Ins(bit)[k])
  {
    hide OnChain, BitOf, Pow2, PointersOk, NextOf, MembersOk;
    assert HeadOk(job, t, v, bit);
  }

  // Along the migrated entries of its chain to the frontier.
  lemma {:induction false} WalkOwn(job: Job, m: Moment, x: nat, hash: nat, r: Reader, k: nat)
    returns (n: nat, r': Reader)
    requires m.v.After? && Describes(job, m.t, m.v) && m.t.Valid() && |m.v.bits| == |m.v.c|
    requires var f := m.v.Frontier(BitOf(job, hash));
      k <= f < |m.v.c| && m.v.bits[f] == BitOf(job, hash) && x !in m.v.c[..f + 1]
    requires m.v.bits[k] == BitOf(job, hash) && On(job, hash, r, m.v.c[k])
    ensures Steps(m, r, hash, x, n) == r' && On(job, hash, r', m.v.c[m.v.Frontier(BitOf(job, hash))])
    decreases m.v.Frontier(BitOf(job, hash)) - k
  {
    hide Describes, BitOf, OnChain, NextOf, Iterate;
    var bit := BitOf(job, hash);
    var f := m.v.Frontier(bit);
    if k == f {
      n, r' := 0, r;
    } else {
      var next := NextOf(m.v.bits, bit, k + 1);
      assert m.v.c[..f + 1][next] == m.v.c[next];
      BitsLength(job, m.t, m.v);
      HomeInTable(job, m.t, bit);
      PointerAt(job, m.t, m.v, k);
      OriginalOwn(job, m.t, m.v, next);
      StepOwn(job, m, x, hash, r, m.v.c[next]);
      n, r' := WalkOwn(job, m, x, hash, Iterate(r, hash, {x}, m.t, m.t), next);
      n := n + 1;
    }
  }

  lemma PointerAt(job: Job, t: Table, v: View, k: nat)
    requires v.After? && Describes(job, t, v) && k < |v.c|
    ensures |v.c| == |v.bits| && v.c[k] < t.Size() && PointerOk(job, t, v, k)
  {
    hide Pow2, BitOf, OnChain, HeadOk, NextOf, MembersOk;
  }

  // Original pointers take it on.
  lemma StepOriginal(job: Job, m: Moment, x: nat, hash: nat, r: Reader, k: nat)
    requires m.v.After? && Describes(job, m.t, m.v) && m.t.Valid() && job.shift > 0 && k < |m.v.c| == |m.v.bits|
    requires On(job, hash, r, m.v.c[k]) && k >= m.v.Frontier(m.v.bits[k]) && (k + 1 < |m.v.c| ==> m.v.c[k + 1] != x)
    ensures var r' := Iterate(r, hash, {x}, m.t, m.t);
      if k + 1 < |m.v.c| then On(job, hash, r', m.v.c[k + 1]) else r' == Missed
  {
    hide Describes, BitOf, OnChain;
    var bit := BitOf(job, hash);
    BitsLength(job, m.t, m.v);
    OldHomeOf(job, m.t.Size(), bit);
    HomeInTable(job, m.t, bit);
    PointerAt(job, m.t, m.v, k);
    if k + 1 < |m.v.c| { OriginalOwn(job, m.t, m.v, k + 1); }
  }

  // From the frontier on all pointers are original: it gets to entry i, whichever chain
  // that belongs to.
  lemma {:induction false} WalkOriginal(job: Job, m: Moment, x: nat, hash: nat, r: Reader, k: nat, i: nat)
    returns (n: nat, r': Reader)
    requires m.v.After? && Describes(job, m.t, m.v) && m.t.Valid() && job.shift > 0 && |m.v.bits| == |m.v.c|
    requires m.v.Frontier(BitOf(job, hash)) <= k <= i < |m.v.c| && x !in m.v.c[..i + 1] && On(job, hash, r, m.v.c[k])
    ensures Steps(m, r, hash, x, n) == r' && On(job, hash, r', m.v.c[i])
    decreases i - k
  {
    hide Describes, BitOf, OnChain, NextOf, Iterate;
    if k == i {
      n, r' := 0, r;
    } else {
      assert m.v.c[..i + 1][k + 1] == m.v.c[k + 1];
      BehindFrontier(job, m, BitOf(job, hash), k);
      StepOriginal(job, m, x, hash, r, k);
      n, r' := WalkOriginal(job, m, x, hash, Iterate(r, hash, {x}, m.t, m.t), k + 1, i);
      n := n + 1;
    }
  }

  // Behind one frontier the other has not got further than entries of its own chain.
  lemma BehindFrontier(job: Job, m: Moment, bit: bool, k: nat)
    requires m.v.After? && Describes(job, m.t, m.v) && m.v.Frontier(bit) <= k < |m.v.c|
    ensures |m.v.c| == |m.v.bits| && k >= m.v.Frontier(m.v.bits[k])
  {
    hide Describes;
    ChainShape(job, m.t, m.v);
  }

  // A migrated pointer of the sibling chain takes it past x, onto an entry under
  // construction.
  lemma StepAstray(job: Job, m: Moment, x: nat, hash: nat, r: Reader, i: nat, n: nat)
    requires m.v.After? && Describes(job, m.t, m.v) && m.t.Valid() && i < |m.v.c| == |m.v.bits|
    requires On(job, hash, r, m.v.c[i]) && m.v.bits[i] != BitOf(job, hash) && i < m.v.Frontier(m.v.bits[i])
    requires n == NextOf(m.v.bits, m.v.bits[i], i + 1) < |m.v.c| && m.v.c[n] < m.t.Size() && !m.t.phase[m.v.c[n]].Live?
    ensures On(job, hash, Iterate(r, hash, {x}, m.t, m.t), m.v.c[n])
  {
    hide Describes, BitOf, OnChain, NextOf;
    BitsLength(job, m.t, m.v);
    HomeInTable(job, m.t, BitOf(job, hash));
    PointerAt(job, m.t, m.v, i);
  }

  // Behind the frontier of the sibling chain it gets to the old end marker, which is the
  // one it expects.
  lemma {:induction false} WalkToEnd(job: Job, m: Moment, x: nat, hash: nat, r: Reader, k: nat) returns (n: nat)
    requires m.v.After? && Describes(job, m.t, m.v) && m.t.Valid() && job.shift > 0 && |m.v.bits| == |m.v.c|
    requires m.v.Frontier(!BitOf(job, hash)) <= k < |m.v.c| && x !in m.v.c[k..] && On(job, hash, r, m.v.c[k])
    ensures Steps(m, r, hash, x, n) == Missed
    decreases |m.v.c| - k
  {
    hide Describes, BitOf, OnChain, Iterate;
    var v, next := m.v, Iterate(r, hash, {x}, m.t, m.t);
    BehindFrontier(job, m, !BitOf(job, hash), k);
    if k + 1 < |v.c| { assert v.c[k..][1] == v.c[k + 1]; }
    StepOriginal(job, m, x, hash, r, k);
    if k + 1 < |v.c| {
      assert forall e :: e in v.c[k + 1..] ==> e in v.c[k..];
      n := WalkToEnd(job, m, x, hash, next, k + 1);
      n := n + 1;
    } else {
      n := 1;
      assert Steps(m, next, hash, x, 0) == next;
    }
  }

  // -- the schedule -----------------------------------------------------------------------------------

  // n0 iterations at moment p, then n1 iterations at moment q.
  function Times(p: nat, n0: nat, q: nat, n1: nat): (ts: seq<Read>)
    requires p <= q
    ensures forall len :: q < len ==> InOrder(len, ts)
  {
    seq(n0 + n1, k => if k < n0 then Read(p, p) else Read(q, q))
  }

  lemma {:induction false} RunSteps(job: Job, log: seq<Moment>, r: Reader, hash: nat, x: nat, p: nat, n0: nat, q: nat,
                                    n1: nat)
    requires History(job, log) && p <= q < |log| && log[p].t.Valid() && log[q].t.Valid()
    ensures Run(job, log, r, hash, {x}, Times(p, n0, q, n1))
      == Steps(log[q], Steps(log[p], r, hash, x, n0), hash, x, n1)
    decreases n0 + n1
  {
    hide Iterate, History;
    if n0 > 0 {
      assert Times(p, n0, q, n1)[1..] == Times(p, n0 - 1, q, n1);
      RunSteps(job, log, Iterate(r, hash, {x}, log[p].t, log[p].t), hash, x, p, n0 - 1, q, n1);
    } else if n1 > 0 {
      assert Times(p, 0, q, n1)[1..] == Times(p, 0, q, n1 - 1);
      RunSteps(job, log, Iterate(r, hash, {x}, log[q].t, log[q].t), hash, x, p, 0, q, n1 - 1);
    }
  }

  // From the start of a lookup to the sibling entry i behind the frontier.
  lemma GetToSibling(job: Job, m: Moment, x: nat, hash: nat, i: nat) returns (n: nat, r: Reader)
    requires m.v.After? && Describes(job, m.t, m.v) && m.t.Valid() && job.shift > 0
    requires OnChain(job.oldHome, job.shift, hash)
    requires m.v.Frontier(BitOf(job, hash)) < i < |m.v.c| && x !in m.v.c[..i + 1] && x !in m.v.Ins(BitOf(job, hash))
    ensures Steps(m, Walking(job.oldHome, job.shift, -1, -1), hash, x, n) == r && On(job, hash, r, m.v.c[i])
  {
    hide Describes, BitOf, OnChain, NextOf, Iterate;
    var bit := BitOf(job, hash);
    var f := m.v.Frontier(bit);
    ChainShape(job, m.t, m.v);
    assert m.v.c[..f + 1] <= m.v.c[..i + 1];
    var a := NextOf(m.v.bits, bit, 0);
    assert m.v.c[..i + 1][a] == m.v.c[a];
    var r0, r1 := Walking(job.oldHome, job.shift, -1, -1), Walking(job.Home(bit), job.shift + 1, -1, -1);
    StepRestart(job, m, x, hash);
    var n1, r2 := WalkInserted(job, m, x, hash, r1, 0);
    var n2, r3 := WalkOwn(job, m, x, hash, r2, a);
    var n3, r4 := WalkOriginal(job, m, x, hash, r3, f, i);
    StepsMore(m, r1, hash, x, n1, n2);
    StepsMore(m, r1, hash, x, n1 + n2, n3);
    n, r := 1 + (n1 + n2 + n3), r4;
    assert Steps(m, r0, hash, x, n) == Steps(m, r1, hash, x, n1 + n2 + n3);
  }

  // Past x and on to the end.
  lemma GetToEnd(job: Job, m: Moment, x: nat, hash: nat, r: Reader, i: nat, n: nat) returns (k: nat)
    requires m.v.After? && Describes(job, m.t, m.v) && m.t.Valid() && job.shift > 0 && |m.v.bits| == |m.v.c|
    requires i < |m.v.c| && On(job, hash, r, m.v.c[i]) && m.v.bits[i] != BitOf(job, hash)
    requires i < n == m.v.Frontier(!BitOf(job, hash)) < |m.v.c| && n == NextOf(m.v.bits, !BitOf(job, hash), i + 1)
    requires x !in m.v.c[n..] && m.v.c[n] < m.t.Size() && !m.t.phase[m.v.c[n]].Live?
    ensures Steps(m, r, hash, x, k) == Missed
  {
    hide Describes, BitOf, NextOf, Iterate;
    StepAstray(job, m, x, hash, r, i, n);
    k := WalkToEnd(job, m, x, hash, Iterate(r, hash, {x}, m.t, m.t), n);
    k := k + 1;
  }

  // -- where the trap is -----------------------------------------------------------------------------

  lemma {:induction false} LastSibling(bits: seq<bool>, bit: bool, i: nat, j: nat) returns (k: nat)
    requires i < j < |bits| && bits[i] != bit && bits[j] == bit
    ensures i <= k < j && bits[k] != bit && NextOf(bits, !bit, k + 1) == NextOf(bits, !bit, j + 1)
    decreases j
  {
    if bits[j - 1] != bit {
      k := j - 1;
      NextOfIs(bits, !bit, j, NextOf(bits, !bit, j + 1));
    } else {
      k := LastSibling(bits, bit, i, j - 1);
      NextOfIs(bits, !bit, j, NextOf(bits, !bit, j + 1));
    }
  }

  // The positions that make up a trap: the sibling entry i, x at j, and the next sibling
  // entry n.
  lemma TrapPositions(c: seq<nat>, bits: seq<bool>, bit: bool, x: nat, e: nat, base: nat)
    returns (i: nat, j: nat, n: nat)
    requires |c| == |bits| && TrapAt(c, bits, bit, x, e, base) && Distinct(c)
    requires forall k :: 0 <= k < |c| && c[k] == x ==> bits[k] == bit
    ensures base < i < j < n < |c| && c[j] == x && c[n] == e
    ensures bits[i] != bit && bits[n] != bit && n == NextOf(bits, !bit, i + 1)
  {
    hide Distinct, Entered, NextOf;
    var i0, j0 :| 0 <= i0 < j0 < |c| && c[j0] == x && bits[i0] != bit && Entered(c, bits, bit, c[i0], base)
      && NextOf(bits, !bit, j0 + 1) < |c| && c[NextOf(bits, !bit, j0 + 1)] == e;
    EnteredAt(c, bits, bit, i0, base);
    j := j0;
    i := LastSibling(bits, bit, i0, j);
    n := NextOf(bits, !bit, j + 1);
  }

  lemma EnteredAt(c: seq<nat>, bits: seq<bool>, bit: bool, i: nat, base: nat)
    requires |c| == |bits| && i < |c| && Distinct(c) && Entered(c, bits, bit, c[i], base)
    ensures base < i
  {
    var a, k :| base <= a < k < |c| && c[k] == c[i] && bits[a] == bit && bits[k] != bit;
    assert k == i;
  }

  lemma OnlyAt(c: seq<nat>, j: nat, i: nat, n: nat)
    requires Distinct(c) && i < j < n < |c|
    ensures c[j] !in c[..i + 1] && c[j] !in c[n..]
  {
  }

  lemma TargetBits(job: Job, m: Moment, x: nat, hash: nat)
    requires m.v.After? && Describes(job, m.t, m.v) && Present(job, m, x, hash)
    ensures |m.v.c| == |m.v.bits| && OnChain(job.oldHome, job.shift, hash)
    ensures forall k :: 0 <= k < |m.v.c| && m.v.c[k] == x ==> m.v.bits[k] == BitOf(job, hash)
  {
    hide Describes, BitOf, OnChain, Own;
    BitsLength(job, m.t, m.v);
    forall k | 0 <= k < |m.v.c| && m.v.c[k] == x
      ensures m.v.bits[k] == BitOf(job, hash)
    {
      OriginalOwn(job, m.t, m.v, k);
    }
  }

  // -- the trap springs --------------------------------------------------------------------------------

  // Once the heads are swung and the trap is set, the splitting thread alone springs it.
  lemma Springs(job: Job, m: Moment, log: seq<Moment>, alone: bool, x: nat, hash: nat, e: nat)
    returns (log': seq<Moment>, times: seq<Read>)
    requires Proceeds(job, m, log, alone) && job.shift > 0
    requires var last := log[|log| - 1];
      && last.v.After? && |last.v.c| == |last.v.bits| && Present(job, last, x, hash)
      && TrapAt(last.v.c, last.v.bits, BitOf(job, hash), x, e, last.v.Frontier(BitOf(job, hash)))
      && e < |last.t.phase| && !last.t.phase[e].Live?
    ensures Proceeds(job, m, log', alone) && log <= log' && InOrder(|log'|, times)
    ensures forall k :: |log| - 1 <= k < |log'| ==> SameEntries(log[|log| - 1], log'[k])
    ensures Run(job, log', Walking(job.oldHome, job.shift, -1, -1), hash, {x}, times) == Missed
  {
    hide Describes, BitOf, OnChain, NextOf, Run, IsWrite, IsAct, TrapAt, Present, History, Times, Later, Keeps, Steps;
    hide FrontiersOk, InTable, Distinct;
    var p, bit := |log| - 1, BitOf(job, hash);
    var here := log[p];
    LogShape(job, log);
    ChainShape(job, here.t, here.v);
    TargetBits(job, here, x, hash);
    var i, j, n := TrapPositions(here.v.c, here.v.bits, bit, x, e, here.v.Frontier(bit));
    OriginalOwn(job, here.t, here.v, n);
    SiblingBehind(job, here, bit, n);
    log' := ReachFrontier(job, m, log, alone, !bit, n);
    var q := |log'| - 1;
    LogShape(job, log');
    ChainShape(job, log'[q].t, log'[q].v);
    OnlyAt(here.v.c, j, i, n);
    NotAmongInserted(job, here, bit, j);
    var n0, r := GetToSibling(job, here, x, hash, i);
    var n1 := GetToEnd(job, log'[q], x, hash, r, i, n);
    times := Times(p, n0, q, n1);
    RunSteps(job, log', Walking(job.oldHome, job.shift, -1, -1), hash, x, p, n0, q, n1);
  }

  lemma SiblingBehind(job: Job, m: Moment, bit: bool, n: nat)
    requires m.v.After? && Describes(job, m.t, m.v) && m.v.Frontier(bit) <= n < |m.v.c| == |m.v.bits|
    requires m.v.bits[n] == !bit
    ensures m.v.Frontier(!bit) <= n
  {
    hide Describes;
    BehindFrontier(job, m, bit, n);
  }

  lemma NotAmongInserted(job: Job, m: Moment, bit: bool, j: nat)
    requires m.v.After? && Describes(job, m.t, m.v) && j < |m.v.c|
    ensures m.v.c[j] !in m.v.Ins(bit)
  {
    hide AfterOk;
    NotInserted(m.v, bit, j);
  }

  // The hash bits of the chain, and where a lookup that starts now will leave the
  // migrated part of it.
  function BitsAt(job: Job, m: Moment): (bits: seq<bool>)
    requires Describes(job, m.t, m.v)
    ensures |bits| == |m.v.c|
  {
    if m.v.After? then m.v.bits else BitsOf(job, m.t, m.v.c)
  }

  function BaseAt(m: Moment, bit: bool): nat {
    if m.v.After? then m.v.Frontier(bit) else 0
  }

  // Behind that position a sibling entry comes before x, with an entry of x's chain
  // before it; e is the next sibling entry behind x.
  ghost predicate Poised(job: Job, m: Moment, bit: bool, x: nat, e: nat)
    requires Describes(job, m.t, m.v)
  {
    TrapAt(m.v.c, BitsAt(job, m), bit, x, e, BaseAt(m, bit)) && e < |m.t.phase|
  }

  // A lookup of x that starts now reports a miss, although x is live and linked at every
  // moment.
  ghost predicate Misses(job: Job, m: Moment, x: nat, hash: nat, alone: bool, log: seq<Moment>, times: seq<Read>) {
    && Proceeds(job, m, log, alone) && (forall k :: 0 <= k < |log| ==> Present(job, log[k], x, hash))
    && InOrder(|log|, times)
    && Run(job, log, Walking(job.oldHome, job.shift, -1, -1), hash, {x}, times) == Missed
  }

  ghost predicate MayMiss(job: Job, m: Moment, x: nat, hash: nat, alone: bool) {
    exists log, times :: Misses(job, m, x, hash, alone, log, times)
  }

  // Two more writes bring the split from before the big step to after it.
  lemma SwingHeads(job: Job, m: Moment) returns (log: seq<Moment>)
    requires m.v.Before? && Describes(job, m.t, m.v)
    ensures Describes(job, Stored(job, m).t, Stored(job, m).v)
    ensures Proceeds(job, m, log, true) && |log| == 3 && log[2] == Swung(job, Stored(job, m))
  {
    hide Describes, Later, Keeps, NextOf, BitsOf, IsAct, GrowHeadStored;
    StoredOk(job, m);
    var m1 := Stored(job, m);
    SwungOk(job, m1);
    ProceedsOne(job, m, true);
    ProceedsMore(job, m, [m], true, m1);
    ProceedsMore(job, m, [m] + [m1], true, Swung(job, m1));
    log := [m] + [m1] + [Swung(job, m1)];
  }

  // Then no position in front of the first entry of a chain matters.
  lemma TrapFirst(c: seq<nat>, bits: seq<bool>, bit: bool, x: nat, e: nat)
    requires |c| == |bits| && TrapAt(c, bits, bit, x, e, 0)
    ensures TrapAt(c, bits, bit, x, e, NextOf(bits, bit, 0))
  {
    hide NextOf, Entered;
    var i, j :| 0 <= i < j < |c| && c[j] == x && bits[i] != bit && Entered(c, bits, bit, c[i], 0)
      && NextOf(bits, !bit, j + 1) < |c| && c[NextOf(bits, !bit, j + 1)] == e;
    EnteredFirst(c, bits, bit, c[i]);
  }

  lemma EnteredFirst(c: seq<nat>, bits: seq<bool>, bit: bool, e: nat)
    requires |c| == |bits| && Entered(c, bits, bit, e, 0)
    ensures Entered(c, bits, bit, e, NextOf(bits, bit, 0))
  {
    hide NextOf;
    var a, i :| 0 <= a < i < |c| && c[i] == e && bits[a] == bit && bits[i] != bit;
    assert NextOf(bits, bit, 0) <= a;
  }

  lemma SwungTrap(job: Job, m: Moment, bit: bool, x: nat, e: nat)
    requires m.v.Before? && Describes(job, m.t, m.v) && Poised(job, m, bit, x, e)
    ensures Describes(job, Stored(job, m).t, Stored(job, m).v)
    ensures var v := Swung(job, Stored(job, m)).v;
      v.After? && |v.c| == |v.bits| && TrapAt(v.c, v.bits, bit, x, e, v.Frontier(bit))
  {
    hide Describes, NextOf, BitsOf, TrapAt, Later, Keeps;
    StoredOk(job, m);
    BeforeShape(job, m.t, m.v);
    BeforeShape(job, Stored(job, m).t, m.v);
    SameBits(job, m.t, Stored(job, m).t, m.v.c);
    TrapFirst(m.v.c, BitsOf(job, m.t, m.v.c), bit, x, e);
  }

  lemma SamePresent(job: Job, m: Moment, m': Moment, x: nat, hash: nat)
    requires SameEntries(m, m') && Present(job, m, x, hash)
    ensures Present(job, m', x, hash)
  {
    hide BitOf, OnChain;
  }

  // Whenever the trap is set, the split alone can spring it.
  lemma TrapSprings(job: Job, m: Moment, x: nat, hash: nat, e: nat)
    requires Describes(job, m.t, m.v) && Present(job, m, x, hash) && job.shift > 0
    requires Poised(job, m, BitOf(job, hash), x, e) && !m.t.phase[e].Live?
    ensures MayMiss(job, m, x, hash, true)
  {
    hide Describes, Present, Run, BitOf, TrapAt, IsWrite, IsAct, History, NextOf, BitsOf;
    var log := [m];
    if m.v.After? {
      ProceedsOne(job, m, true);
      BitsLength(job, m.t, m.v);
    } else {
      SwungTrap(job, m, BitOf(job, hash), x, e);
      log := SwingHeads(job, m);
    }
    AloneSame(job, m, log, |log| - 1);
    SamePresent(job, m, log[|log| - 1], x, hash);
    var log', times := Springs(job, m, log, true, x, hash, e);
    forall k | 0 <= k < |log'| ensures Present(job, log'[k], x, hash) {
      AloneSame(job, m, log', k);
      SamePresent(job, m, log'[k], x, hash);
    }
    assert Misses(job, m, x, hash, true, log', times);
  }

  // In the other direction: what is a trap later on was one from the start.
  lemma TrapStays(job: Job, m: Moment, log: seq<Moment>, bit: bool, x: nat, k: nat, e: nat)
    requires Describes(job, m.t, m.v) && Proceeds(job, m, log, true) && k < |log| && log[k].v.After?
    requires |log[k].v.c| == |log[k].v.bits| && TrapAt(log[k].v.c, log[k].v.bits, bit, x, e, BaseAt(m, bit))
    ensures Poised(job, m, bit, x, e) && m.t.phase == log[k].t.phase
  {
    hide Describes, TrapAt, IsWrite, IsAct, NextOf, BitsOf, Later, Keeps;
    AloneSame(job, m, log, k);
    LogDescribed(job, log, k);
    LogDescribed(job, log, 0);
    BitsLength(job, log[k].t, log[k].v);
    if m.v.Before? {
      BeforeShape(job, m.t, m.v);
      BitsDetermined(job, m.t, m.v.c, log[k].t, log[k].v);
    }
    TrapInTable(job, log[k], bit, x, e, BaseAt(m, bit));
  }

  lemma LogDescribed(job: Job, log: seq<Moment>, k: nat)
    requires History(job, log) && k < |log|
    ensures Describes(job, log[k].t, log[k].v)
  {
    hide Describes;
  }

  lemma BitsDetermined(job: Job, t: Table, c: seq<nat>, t': Table, v: View)
    requires v.After? && Describes(job, t', v) && v.c == c && t'.hash == t.hash && InTable(t, c) && t.Valid()
    ensures v.bits == BitsOf(job, t, c)
  {
    hide BitOf, OnChain, PointersOk, HeadOk, MembersOk;
  }

  lemma TrapInTable(job: Job, m: Moment, bit: bool, x: nat, e: nat, base: nat)
    requires m.v.After? && Describes(job, m.t, m.v) && |m.v.c| == |m.v.bits|
    requires TrapAt(m.v.c, m.v.bits, bit, x, e, base)
    ensures e < |m.t.phase|
  {
    hide BitOf, OnChain, PointersOk, HeadOk, NextOf, Entered;
    var n :| 0 <= n < |m.v.c| && m.v.c[n] == e;
    assert m.v.Members()[n] == e;
  }

  // The frontiers only move forward.
  lemma LogReached(job: Job, m: Moment, log: seq<Moment>, alone: bool, bit: bool, k: nat)
    requires Proceeds(job, m, log, alone) && k < |log|
    ensures Reached(log[k].v, bit, BaseAt(m, bit))
    ensures m.v.After? ==> log[k].v.After? && log[k].v.c == m.v.c && log[k].v.bits == m.v.bits
  {
    hide Describes, IsWrite, IsAct, Keeps;
    if k > 0 && m.v.After? { LaterHere(log[0].v, log[k].v); }
  }

  lemma NoTrapNoMiss(job: Job, m: Moment, x: nat, hash: nat, alone: bool, log: seq<Moment>, times: seq<Read>)
    requires Proceeds(job, m, log, alone) && job.shift > 0 && InOrder(|log|, times)
    requires forall k :: 0 <= k < |log| ==> Present(job, log[k], x, hash)
    requires var bit := BitOf(job, hash);
      forall k :: 0 <= k < |log| ==> !Trapped(log[k], bit, x, BaseAt(m, bit))
    ensures Run(job, log, Walking(job.oldHome, job.shift, -1, -1), hash, {x}, times) != Missed
  {
    hide Describes, Present, Trapped, Run, Safe, IsWrite, IsAct, BitOf, Reached, BaseAt;
    var bit := BitOf(job, hash);
    forall k | 0 <= k < |log| ensures Reached(log[k].v, bit, BaseAt(m, bit)) {
      LogReached(job, m, log, alone, bit, k);
    }
    var r := Walking(job.oldHome, job.shift, -1, -1);
    if times != [] {
      LogDescribed(job, log, times[0].pointer);
      StartSafe(job, log[times[0].pointer], x, hash, r, BaseAt(m, bit));
    }
    NeverMisses(job, log, times, x, hash, {x}, r, BaseAt(m, bit));
  }

  // The trap is set when the next sibling entry is under (de)construction.
  ghost predicate TrapSet(job: Job, m: Moment, bit: bool, x: nat)
    requires Describes(job, m.t, m.v)
  {
    exists e: nat :: e < |m.t.phase| && !m.t.phase[e].Live? && Poised(job, m, bit, x, e)
  }

  lemma NeverTrapped(job: Job, m: Moment, log: seq<Moment>, bit: bool, x: nat, k: nat)
    requires Describes(job, m.t, m.v) && Proceeds(job, m, log, true) && k < |log| && !TrapSet(job, m, bit, x)
    ensures !Trapped(log[k], bit, x, BaseAt(m, bit))
  {
    hide Describes, IsWrite, IsAct, History, TrapAt, BaseAt;
    if Trapped(log[k], bit, x, BaseAt(m, bit)) {
      var v := log[k].v;
      var e: nat :| TrapAt(v.c, v.bits, bit, x, e, BaseAt(m, bit))
        && (e >= |log[k].t.phase| || !log[k].t.phase[e].Live?);
      TrapStays(job, m, log, bit, x, k, e);
    }
  }

  // Exactly when can a split that proceeds on its own make a lookup miss a live linked
  // entry? In every state of the split: when behind the frontier of its chain a sibling
  // entry separates it from an earlier entry of its own chain, and the next sibling entry
  // is under (de)construction.
  lemma LookupMissesIffTrapped(job: Job, m: Moment, x: nat, hash: nat)
    requires Describes(job, m.t, m.v) && Present(job, m, x, hash) && job.shift > 0
    ensures MayMiss(job, m, x, hash, true) <==> TrapSet(job, m, BitOf(job, hash), x)
  {
    hide Describes, Present, Poised, Run, BitOf, BaseAt, Proceeds, InOrder, Trapped;
    var bit := BitOf(job, hash);
    if TrapSet(job, m, bit, x) {
      var e: nat :| e < |m.t.phase| && !m.t.phase[e].Live? && Poised(job, m, bit, x, e);
      TrapSprings(job, m, x, hash, e);
    } else if MayMiss(job, m, x, hash, true) {
      var log, times :| Misses(job, m, x, hash, true, log, times);
      forall k | 0 <= k < |log| ensures !Trapped(log[k], bit, x, BaseAt(m, bit)) {
        NeverTrapped(job, m, log, bit, x, k);
      }
      NoTrapNoMiss(job, m, x, hash, true, log, times);
    }
  }

  // Other threads may also start to erase the next sibling entry, so that all that
  // matters then is that there is one.
  lemma BusyMissesIffPoised(job: Job, m: Moment, x: nat, hash: nat)
    requires m.v.After? && Describes(job, m.t, m.v) && Present(job, m, x, hash) && job.shift > 0
    ensures MayMiss(job, m, x, hash, false) <==> exists e: nat :: Poised(job, m, BitOf(job, hash), x, e)
  {
    hide Describes, Present, Poised, Run, BitOf, BaseAt, Proceeds, InOrder, Trapped;
    var bit := BitOf(job, hash);
    if e: nat :| Poised(job, m, bit, x, e) {
      EraseSprings(job, m, x, hash, e);
    } else if MayMiss(job, m, x, hash, false) {
      var log, times :| Misses(job, m, x, hash, false, log, times);
      forall k | 0 <= k < |log| ensures !Trapped(log[k], bit, x, BaseAt(m, bit)) {
        NeverPoised(job, m, log, bit, x, k);
      }
      NoTrapNoMiss(job, m, x, hash, false, log, times);
    }
  }

  lemma NeverPoised(job: Job, m: Moment, log: seq<Moment>, bit: bool, x: nat, k: nat)
    requires m.v.After? && Describes(job, m.t, m.v) && Proceeds(job, m, log, false) && k < |log|
    requires forall e: nat :: !Poised(job, m, bit, x, e)
    ensures !Trapped(log[k], bit, x, BaseAt(m, bit))
  {
    hide Describes, IsWrite, IsAct, History, TrapAt;
    if Trapped(log[k], bit, x, BaseAt(m, bit)) {
      var v := log[k].v;
      var e: nat :| TrapAt(v.c, v.bits, bit, x, e, BaseAt(m, bit));
      PoisedBefore(job, m, log, bit, x, k, e);
    }
  }

  lemma PoisedBefore(job: Job, m: Moment, log: seq<Moment>, bit: bool, x: nat, k: nat, e: nat)
    requires m.v.After? && Describes(job, m.t, m.v) && Proceeds(job, m, log, false) && k < |log| && log[k].v.After?
    requires |log[k].v.c| == |log[k].v.bits| && TrapAt(log[k].v.c, log[k].v.bits, bit, x, e, BaseAt(m, bit))
    ensures Poised(job, m, bit, x, e)
  {
    hide Describes, IsWrite, IsAct, History, TrapAt;
    LogReached(job, m, log, false, bit, k);
    TrapInTable(job, m, bit, x, e, BaseAt(m, bit));
  }

  // An erasing thread sets the trap, and the split springs it.
  lemma EraseSprings(job: Job, m: Moment, x: nat, hash: nat, e: nat)
    requires m.v.After? && Describes(job, m.t, m.v) && Present(job, m, x, hash) && job.shift > 0
    requires Poised(job, m, BitOf(job, hash), x, e)
    ensures MayMiss(job, m, x, hash, false)
  {
    hide Describes, Run, BitOf, TrapAt, IsWrite, IsAct, History, OnChain;
    var bit, log := BitOf(job, hash), [m];
    BitsLength(job, m.t, m.v);
    ProceedsOne(job, m, false);
    if m.t.phase[e].Live? {
      NotItself(job, m, x, hash, e);
      var m1 := Retired(job, m, e);
      ProceedsMore(job, m, log, false, m1);
      log := log + [m1];
    }
    var log', times := Springs(job, m, log, false, x, hash, e);
    forall k | 0 <= k < |log'| ensures Present(job, log'[k], x, hash) {
      if k >= |log| - 1 { SamePresent(job, log[|log| - 1], log'[k], x, hash); }
      else { assert log'[k] == log[k]; }
    }
    assert Misses(job, m, x, hash, false, log', times);
  }

  lemma Retired(job: Job, m: Moment, e: nat) returns (m1: Moment)
    requires Describes(job, m.t, m.v) && e < |m.t.phase| && m.t.phase[e].Live?
    ensures m1 == Moment(m.t.(phase := m.t.phase[e := Dying]), m.v)
    ensures Describes(job, m1.t, m1.v) && Later(m.v, m1.v) && Keeps(m.t, m1.t) && IsAct(job, m, m1)
  {
    hide Describes, Later;
    DescribesShape(job, m.t, m.v);
    m1 := Moment(m.t.(phase := m.t.phase[e := Dying]), m.v);
    RetireOk(job, m.t, m.v, e);
    LaterSame(m.v);
    assert m1 == Moment(Act(job, m.t, Retire(e)), ActView(job, m.t, m.v, Retire(e)));
  }

  lemma NotItself(job: Job, m: Moment, x: nat, hash: nat, e: nat)
    requires m.v.After? && Describes(job, m.t, m.v) && Present(job, m, x, hash)
    requires Poised(job, m, BitOf(job, hash), x, e)
    ensures e != x
  {
    hide Describes, BitOf, OnChain, Present, Entered;
    TargetBits(job, m, x, hash);
    ChainShape(job, m.t, m.v);
    var i, j, n := TrapPositions(m.v.c, m.v.bits, BitOf(job, hash), x, e, BaseAt(m, BitOf(job, hash)));
  }

  // -- a concrete miss --------------------------------------------------------------------------------

  // Home 0 splits into 0 and 4, at a moment when the length is 4. Its chain holds the
  // slots 0, 1, 2, 3 with hashes 0, 4, 8, 12, so that slots 1 and 3 go to home 4; slot 3
  // is being erased. The new head is stored and the rewrite lock held.
  function ExampleTable(): Table {
    Table([Locked(0, 2), MakeEnd(1, 2), MakeEnd(2, 2), MakeEnd(3, 2), Locked(1, 3)],
          [Make(1, 2), Make(2, 2), Make(3, 2), MakeEnd(0, 2), Make(0, 0)],
          [0, 4, 8, 12, 0], [Live, Live, Live, Dying, Free])
  }

  function Locked(next: nat, shift: nat): Link { Make(next, shift).(locked := true) }

  lemma ExamplePowers()
    ensures Pow2(2) == 4 && Pow2(3) == 8
  {
    assert Pow2(1) == 2;
  }

  lemma ExampleDescribed()
    ensures Describes(Job(0, 4, 2), ExampleTable(), Before([0, 1, 2, 3]))
  {
    hide Pow2;
    ExamplePowers();
  }

  lemma ExampleBits()
    ensures InTable(ExampleTable(), [0, 1, 2, 3])
    ensures BitsOf(Job(0, 4, 2), ExampleTable(), [0, 1, 2, 3]) == [false, true, false, true]
  {
    hide Pow2;
    ExamplePowers();
  }

  lemma ExampleTrap()
    ensures TrapAt([0, 1, 2, 3], [false, true, false, true], false, 2, 3, 0)
  {
    var c, bits := [0, 1, 2, 3], [false, true, false, true];
    assert Entered(c, bits, false, 1, 0) by { assert c[1] == 1 && bits[0] == false; }
    var i, j := 1, 2;
    assert c[i] == 1 && c[j] == 2 && bits[i] != false && NextOf(bits, !false, j + 1) == 3 && c[3] == 3;
  }

  // Slot 2 is live and linked throughout, and can be missed.
  lemma ExampleMiss()
    ensures MayMiss(Job(0, 4, 2), Moment(ExampleTable(), Before([0, 1, 2, 3])), 2, 8, true)
  {
    hide Describes, Pow2, NextOf, TrapAt, MayMiss, BitsOf;
    ExamplePowers();
    ExampleDescribed();
    ExampleBits();
    ExampleTrap();
    var job, m := Job(0, 4, 2), Moment(ExampleTable(), Before([0, 1, 2, 3]));
    assert Line(m.v, false)[2] == 2;
    assert Poised(job, m, false, 2, 3);
    LookupMissesIffTrapped(job, m, 2, 8);
  }
}
