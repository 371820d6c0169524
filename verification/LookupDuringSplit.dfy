// AutoHyperClockTable::Lookup walking a chain while SplitForGrow rewrites it.
// Lookup takes no lock: it reads each pointer and each entry at some moment, and
// all it can rely on is that moments come in order. The question is whether it
// can return "not found" although the entry is live and linked all the time.
module LookupDuringSplit {
  import opened Probing
  import opened ChainModel
  import opened ChainSplit
  import opened SplitForGrow

  // The locals of the loop: home and its shift, the entry h whose pointer is read
  // next (-1: the head), and the entry held by a read reference (-1: none).
  datatype Reader =
    | Walking(home: nat, shift: nat, at: int, held: int)
    | Found(entry: nat)
    | Missed

  // One iteration of the loop. The pointer is read in table tp, the entry behind
  // it is examined in table tm; `full` holds the visible entries with the full key.
  function Iterate(r: Reader, hash: nat, full: set<nat>, tp: Table, tm: Table): Reader
    requires tp.Valid() && tm.Valid()
  {
    if !r.Walking? || r.home >= tp.Size() || r.at >= tp.Size() then r
    else
      var l := if r.at < 0 then tp.heads[r.home] else tp.nexts[r.at];
      if l.shift > r.shift then
        if r.at == r.held then Walking(hash % Pow2(r.shift + 1), r.shift + 1, -1, -1)
        else r.(at := r.held)
      else
        var home := if l.shift < r.shift then r.home % Pow2(l.shift) else r.home;
        if l.end then (if l.next == home then Missed else r.(at := r.held))
        else Visit(r, hash, full, l, home, tm)
  }

  // Follow the pointer l: full key match, home match, or neither.
  function Visit(r: Reader, hash: nat, full: set<nat>, l: Link, home: nat, tm: Table): Reader
    requires r.Walking? && tm.Valid()
  {
    var e := l.next;
    if e >= tm.Size() || !tm.phase[e].Live? then r.(at := e)
    else if e in full then Found(e)
    else if l.shift > 0 && OnChain(home, l.shift, tm.hash[e]) then
      if l.shift != r.shift && !OnChain(r.home, r.shift, tm.hash[e]) then r.(at := e)
      else r.(at := e, held := e)
    else r.(at := r.held)
  }

  // -- order of entries ----------------------------------------------------------------------

  predicate Precedes(p: seq<nat>, e: nat, x: nat) {
    exists i, j :: 0 <= i < j < |p| && p[i] == e && p[j] == x
  }

  // What lies ahead of a reader of chain `bit`, in order.
  function Line(v: View, bit: bool): seq<nat> {
    if v.Before? then v.c else v.Ins(bit) + v.c
  }

  lemma PrecedesSuffix(p: seq<nat>, q: seq<nat>, e: nat, x: nat)
    requires Suffix(p, q) && Precedes(p, e, x)
    ensures Precedes(q, e, x)
  {
    var i, j :| 0 <= i < j < |p| && p[i] == e && p[j] == x;
    var n := |q| - |p|;
    assert q[n + i] == q[n..][i] && q[n + j] == q[n..][j];
  }

  lemma LineSuffix(v: View, w: View, bit: bool)
    requires Later(v, w)
    ensures Suffix(Line(v, bit), Line(w, bit))
  {
    var p, q := Line(v, bit), Line(w, bit);
    if w.After? {
      if v.Before? {
        assert q[|q| - |p|..] == w.c[|w.c| - |p|..];
      } else {
        var n := |w.Ins(bit)| - |v.Ins(bit)|;
        assert q[n..] == w.Ins(bit)[n..] + w.c;
      }
    }
  }

  // Where position i of the line is among the members.
  function LineIndex(v: View, bit: bool, i: nat): nat
    requires v.After? && i < |Line(v, bit)|
  {
    if i < |v.Ins(bit)| then |v.c| + (if bit then |v.ins0| else 0) + i else i - |v.Ins(bit)|
  }

  lemma LineAt(v: View, bit: bool, i: nat)
    requires v.After? && i < |Line(v, bit)|
    ensures LineIndex(v, bit, i) < |v.Members()| && v.Members()[LineIndex(v, bit, i)] == Line(v, bit)[i]
  {
  }

  lemma LineDistinct(t: Table, v: View, bit: bool)
    requires MembersOk(t, v)
    ensures Distinct(Line(v, bit)) && InTable(t, Line(v, bit))
    ensures forall i :: 0 <= i < |Line(v, bit)| ==> Line(v, bit)[i] in v.Members()
  {
    var m, p := v.Members(), Line(v, bit);
    if v.After? {
      forall i, k | 0 <= i < k < |p| ensures p[i] != p[k] {
        LineAt(v, bit, i);
        LineAt(v, bit, k);
      }
      forall i | 0 <= i < |p| ensures p[i] in m && p[i] < |t.nexts| {
        LineAt(v, bit, i);
      }
    }
  }

  // -- what the reader may be looking at -------------------------------------------------------

  // The entry that is looked up: live, with this hash, on its chain.
  predicate Present(job: Job, m: Moment, x: nat, hash: nat) {
    && x < |m.t.phase| && x < |m.t.hash| && m.t.phase[x].Live? && m.t.hash[x] == hash
    && OnChain(job.oldHome, job.shift, hash)
    && x in Line(m.v, BitOf(job, hash))
  }

  predicate Own(job: Job, t: Table, bit: bool, e: nat) {
    e < |t.hash| && OnChain(job.Home(bit), job.shift + 1, t.hash[e])
  }

  // The frontier of chain `bit` has reached position `base` of the original chain.
  predicate Reached(v: View, bit: bool, base: nat) {
    v.After? ==> base <= v.Frontier(bit)
  }

  // An entry of the sibling chain with an entry of chain `bit` somewhere before it, from
  // position `base` on: where a reader can be that started after the frontier was there.
  predicate Entered(c: seq<nat>, bits: seq<bool>, bit: bool, e: nat, base: nat)
    requires |c| == |bits|
  {
    exists a, i :: base <= a < i < |c| && c[i] == e && bits[a] == bit && bits[i] != bit
  }

  // The trap: x is preceded by a sibling entry which is itself preceded by an
  // entry of x's chain, and e is the first sibling entry behind x.
  predicate TrapAt(c: seq<nat>, bits: seq<bool>, bit: bool, x: nat, e: nat, base: nat)
    requires |c| == |bits|
  {
    exists i, j ::
      && 0 <= i < j < |c| && c[j] == x && bits[i] != bit && Entered(c, bits, bit, c[i], base)
      && NextOf(bits, !bit, j + 1) < |c| && c[NextOf(bits, !bit, j + 1)] == e
  }

  // It is set when that entry is under (de)construction.
  ghost predicate Trapped(m: Moment, bit: bool, x: nat, base: nat) {
    && m.v.After? && |m.v.c| == |m.v.bits|
    && exists e: nat :: TrapAt(m.v.c, m.v.bits, bit, x, e, base) && (e >= |m.t.phase| || !m.t.phase[e].Live?)
  }

  ghost predicate Safe(job: Job, m: Moment, x: nat, hash: nat, r: Reader, base: nat) {
    r.Found? ||
    var bit := BitOf(job, hash);
    && r.Walking?
    && -1 <= r.at && -1 <= r.held && (r.at < 0 ==> r.held < 0)
    && (r.at >= 0 ==> Precedes(Line(m.v, bit), r.at, x))
    && (r.held >= 0 ==> Precedes(Line(m.v, bit), r.held, x))
    && if r.shift == job.shift then r.home == job.oldHome
       else
         && r.shift == job.shift + 1 && r.home == job.Home(bit) && m.v.After? && |m.v.c| == |m.v.bits|
         && (r.held >= 0 ==> Own(job, m.t, bit, r.held))
         && (r.at >= 0 ==> Own(job, m.t, bit, r.at) || Entered(m.v.c, m.v.bits, bit, r.at, base))
  }

  // Safety does not wear off as the split goes on.
  lemma SafeLater(job: Job, m: Moment, m': Moment, x: nat, hash: nat, r: Reader, base: nat)
    requires Describes(job, m.t, m.v) && Describes(job, m'.t, m'.v) && Later(m.v, m'.v) && Keeps(m.t, m'.t)
    requires Safe(job, m, x, hash, r, base)
    ensures Safe(job, m', x, hash, r, base)
  {
    hide Describes, Keeps, OnChain, BitOf, Later, Precedes;
    var bit := BitOf(job, hash);
    if r.Walking? {
      LineSuffix(m.v, m'.v, bit);
      if r.at >= 0 { PrecedesSuffix(Line(m.v, bit), Line(m'.v, bit), r.at, x); }
      if r.held >= 0 { PrecedesSuffix(Line(m.v, bit), Line(m'.v, bit), r.held, x); }
      if r.shift != job.shift {
        LaterHere(m.v, m'.v);
        if r.held >= 0 { OwnLater(job, m, m', bit, r.held, x); }
        if r.at >= 0 && Own(job, m.t, bit, r.at) { OwnLater(job, m, m', bit, r.at, x); }
      }
    }
  }

  lemma OwnLater(job: Job, m: Moment, m': Moment, bit: bool, e: nat, x: nat)
    requires Describes(job, m.t, m.v) && Keeps(m.t, m'.t)
    requires Precedes(Line(m.v, bit), e, x) && Own(job, m.t, bit, e)
    ensures Own(job, m'.t, bit, e)
  {
    hide OnChain;
    LineMember(job, m, bit, e, x);
  }

  // Entries on the line are in the table and occupied.
  lemma LineMember(job: Job, m: Moment, bit: bool, e: nat, x: nat)
    requires Describes(job, m.t, m.v) && Precedes(Line(m.v, bit), e, x)
    ensures e < m.t.Size() && e < |m.t.hash| == |m.t.phase| && !m.t.phase[e].Free?
  {
    hide BeforeOk, AfterOk;
    var p := Line(m.v, bit);
    LineDistinct(m.t, m.v, bit);
    var i, j :| 0 <= i < j < |p| && p[i] == e && p[j] == x;
    assert e in m.v.Members();
  }

  // -- where a pointer leads ------------------------------------------------------------------------

  // The pointer leads to x or to an entry before x: one of x's chain, or one of
  // the sibling chain with an entry of x's chain before it. Pointers with the old
  // shift lead to entries of the old chain.
  predicate Forward(job: Job, m: Moment, bit: bool, x: nat, l: Link, base: nat) {
    && m.v.After? && |m.v.c| == |m.v.bits|
    && !l.end && (l.next == x || Precedes(Line(m.v, bit), l.next, x))
    && (Own(job, m.t, bit, l.next) || (Entered(m.v.c, m.v.bits, bit, l.next, base) && Own(job, m.t, !bit, l.next)))
    && (|| l.shift == job.shift + 1
        || (l.shift == job.shift && l.next < |m.t.hash| && OnChain(job.oldHome, job.shift, m.t.hash[l.next])))
  }

  // The pointer belongs to the sibling chain and leads past x.
  predicate Astray(job: Job, m: Moment, bit: bool, x: nat, l: Link, base: nat) {
    && m.v.After? && |m.v.c| == |m.v.bits|
    && l.shift == job.shift + 1
    && (l.end ==> l.next == job.Home(!bit))
    && (!l.end ==>
         && TrapAt(m.v.c, m.v.bits, bit, x, l.next, base)
         && Own(job, m.t, !bit, l.next) && l.next in m.v.Members())
  }

  // The bit of an original entry tells its new home.
  lemma OriginalOwn(job: Job, t: Table, v: View, k: nat)
    requires v.After? && Describes(job, t, v) && k < |v.c|
    ensures |v.bits| == |v.c| && v.c[k] < |t.hash| && v.c[k] < t.Size()
    ensures Own(job, t, v.bits[k], v.c[k]) && OnChain(job.oldHome, job.shift, t.hash[v.c[k]])
    ensures v.bits[k] == BitOf(job, t.hash[v.c[k]])
  {
    hide PointersOk, HeadOk, MembersOk, Pow2, BitOf;
    HomeBit(job, t.Size(), t.hash[v.c[k]]);
  }

  // Position j of x in the line is position j - |ins| of the original chain.
  lemma OriginalTarget(job: Job, m: Moment, bit: bool, x: nat, hash: nat, j: nat)
    requires m.v.After? && Describes(job, m.t, m.v) && Present(job, m, x, hash) && bit == BitOf(job, hash)
    requires |m.v.Ins(bit)| <= j < |Line(m.v, bit)| && Line(m.v, bit)[j] == x
    ensures |m.v.bits| == |m.v.c| && m.v.c[j - |m.v.Ins(bit)|] == x && m.v.bits[j - |m.v.Ins(bit)|] == bit
  {
    hide Describes, BitOf, OnChain;
    OriginalOwn(job, m.t, m.v, j - |m.v.Ins(bit)|);
  }

  // A pointer to the first entry of x's chain at or after position k of the
  // original chain, with x not before k.
  lemma ForwardTo(job: Job, m: Moment, bit: bool, x: nat, hash: nat, k: nat, j: nat, base: nat)
    requires m.v.After? && Describes(job, m.t, m.v) && Present(job, m, x, hash) && bit == BitOf(job, hash)
    requires |m.v.c| == |m.v.bits| && k <= j < |m.v.c| && m.v.c[j] == x && m.v.bits[j] == bit
    ensures forall l: Link :: Plain(l) == NewLink(job, m.v.c, bit, NextOf(m.v.bits, bit, k)) ==>
      Forward(job, m, bit, x, l, base)
  {
    hide Describes, BitOf, OnChain, Entered, Precedes, Line;
    var v := m.v;
    var n := NextOf(v.bits, bit, k);
    OriginalOwn(job, m.t, v, n);
    if n < j { LinePrecedes(v, bit, n, j); }
  }

  lemma LinePrecedes(v: View, bit: bool, i: nat, j: nat)
    requires v.After? && i < j < |v.c|
    ensures Precedes(Line(v, bit), v.c[i], v.c[j])
  {
    var p, n := Line(v, bit), |v.Ins(bit)|;
    assert p[n + i] == v.c[i] && p[n + j] == v.c[j];
  }

  // The pointer in front of position k of the inserted entries.
  lemma InsertedLink(job: Job, t: Table, v: View, bit: bool, k: nat)
    requires v.After? && Describes(job, t, v) && k <= |v.Ins(bit)|
    ensures |v.bits| == |v.c| && t.Valid() && job.Home(bit) < t.Size() && HeadOk(job, t, v, bit)
    ensures k > 0 ==> v.Ins(bit)[k - 1] < t.Size()
    ensures Plain(if k == 0 then t.heads[job.Home(bit)] else t.nexts[v.Ins(bit)[k - 1]])
      == Ptr(v.Ins(bit), k, job.shift + 1, NewLink(job, v.c, bit, NextOf(v.bits, bit, 0)))
  {
    hide OnChain, BitOf, Pow2, PointersOk, NextOf, MembersOk, Belong;
    assert HeadOk(job, t, v, bit);
  }

  // Reading the pointer in front of position k of the line, at the head or at an
  // inserted entry, with x not before k.
  lemma InsertedPointer(job: Job, m: Moment, x: nat, hash: nat, k: nat, j: nat, base: nat)
    requires m.v.After? && Describes(job, m.t, m.v) && Present(job, m, x, hash)
    requires var bit := BitOf(job, hash); k <= |m.v.Ins(bit)| && k <= j < |Line(m.v, bit)| && Line(m.v, bit)[j] == x
    ensures var v, bit := m.v, BitOf(job, hash);
      && m.t.Valid() && job.Home(bit) < m.t.Size() && (k > 0 ==> v.Ins(bit)[k - 1] < m.t.Size())
      && Forward(job, m, bit, x, if k == 0 then m.t.heads[job.Home(bit)] else m.t.nexts[v.Ins(bit)[k - 1]], base)
  {
    hide Describes, BitOf, OnChain, NextOf, HeadOk, Forward;
    var v, bit := m.v, BitOf(job, hash);
    InsertedLink(job, m.t, v, bit, k);
    if k == |v.Ins(bit)| {
      OriginalTarget(job, m, bit, x, hash, j);
      ForwardTo(job, m, bit, x, hash, 0, j - |v.Ins(bit)|, base);
    } else {
      InsertedForward(job, m, bit, x, k, j, base);
    }
  }

  lemma BitsLength(job: Job, t: Table, v: View)
    requires v.After? && Describes(job, t, v)
    ensures |v.bits| == |v.c| && t.Valid() && job.Ok(t.Size())
  {
  }

  // A pointer to an inserted entry, with x not before it.
  lemma InsertedForward(job: Job, m: Moment, bit: bool, x: nat, k: nat, j: nat, base: nat)
    requires m.v.After? && |m.v.c| == |m.v.bits| && HeadOk(job, m.t, m.v, bit)
    requires k < |m.v.Ins(bit)| && k <= j < |Line(m.v, bit)| && Line(m.v, bit)[j] == x
    ensures forall l: Link :: Plain(l) == Make(m.v.Ins(bit)[k], job.shift + 1) ==> Forward(job, m, bit, x, l, base)
  {
    hide OnChain, NextOf, Linked;
    var p := Line(m.v, bit);
    assert p[k] == m.v.Ins(bit)[k];
    assert k < j ==> Precedes(p, p[k], x);
  }

  lemma LineOriginal(t: Table, v: View)
    requires v.After? && MembersOk(t, v)
    ensures Distinct(v.c) && InTable(t, v.c)
  {
    OriginalDistinct(v);
    assert forall i :: 0 <= i < |v.c| ==> v.Members()[i] == v.c[i];
  }

  lemma EnteredNext(v: View, bit: bool, i: nat, n: nat, base: nat)
    requires v.After? && |v.c| == |v.bits| && Distinct(v.c) && i < n < |v.c| && v.bits[n] != bit
    requires (v.bits[i] == bit && base <= i) || Entered(v.c, v.bits, bit, v.c[i], base)
    ensures Entered(v.c, v.bits, bit, v.c[n], base)
  {
    if v.bits[i] != bit {
      var a, k :| base <= a < k < |v.c| && v.c[k] == v.c[i] && v.bits[a] == bit && v.bits[k] != bit;
      assert k == i;
    }
  }

  // A pointer to position k of the original chain, not behind x, from position i.
  lemma ForwardOriginal(job: Job, m: Moment, bit: bool, x: nat, i: nat, k: nat, j: nat, shift: nat, base: nat)
    requires m.v.After? && Describes(job, m.t, m.v) && |m.v.c| == |m.v.bits| && i < k <= j < |m.v.c| && m.v.c[j] == x
    requires (m.v.bits[i] == bit && base <= i) || Entered(m.v.c, m.v.bits, bit, m.v.c[i], base)
    requires shift == job.shift || shift == job.shift + 1
    ensures Forward(job, m, bit, x, Make(m.v.c[k], shift), base)
  {
    hide BitOf, OnChain, AfterOk, Entered, Precedes, Line, Pow2;
    LineOriginal(m.t, m.v);
    OriginalOwn(job, m.t, m.v, k);
    if m.v.bits[k] != bit { EnteredNext(m.v, bit, i, k, base); }
    if k < j { LinePrecedes(m.v, bit, k, j); }
  }

  // The migrated pointer of a sibling entry: forward, or astray past x.
  lemma SiblingPointer(job: Job, m: Moment, bit: bool, x: nat, i: nat, j: nat, base: nat)
    requires m.v.After? && Describes(job, m.t, m.v) && |m.v.c| == |m.v.bits| && i < j < |m.v.c| && m.v.c[j] == x
    requires m.v.bits[j] == bit
    requires m.v.bits[i] != bit && Entered(m.v.c, m.v.bits, bit, m.v.c[i], base)
    ensures var l := NewLink(job, m.v.c, !bit, NextOf(m.v.bits, !bit, i + 1));
      Forward(job, m, bit, x, l, base) || Astray(job, m, bit, x, l, base)
  {
    hide Describes, BitOf, OnChain, Entered, Forward;
    var v := m.v;
    var n := NextOf(v.bits, !bit, i + 1);
    if n < j {
      ForwardOriginal(job, m, bit, x, i, n, j, job.shift + 1, base);
    } else if n < |v.c| {
      NextOfIs(v.bits, !bit, j + 1, n);
      OriginalOwn(job, m.t, v, n);
      assert v.Members()[n] == v.c[n];
    }
  }

  // At original entry i before x.
  lemma OriginalPointer(job: Job, m: Moment, bit: bool, x: nat, hash: nat, i: nat, j: nat, base: nat)
    requires m.v.After? && Describes(job, m.t, m.v) && Present(job, m, x, hash) && bit == BitOf(job, hash)
    requires base <= m.v.Frontier(bit)
    requires |m.v.c| == |m.v.bits| && i < j < |m.v.c| && m.v.c[j] == x && m.v.bits[j] == bit
    requires m.v.bits[i] == bit || Entered(m.v.c, m.v.bits, bit, m.v.c[i], base)
    ensures m.v.c[i] < m.t.Size()
    ensures var l := m.t.nexts[m.v.c[i]]; Forward(job, m, bit, x, l, base) || Astray(job, m, bit, x, l, base)
  {
    hide BitOf, OnChain, Entered, Forward, Astray, NextOf, HeadOk, MembersOk, Present;
    var v := m.v;
    assert PointerOk(job, m.t, v, i);
    if i >= v.Frontier(v.bits[i]) {
      ForwardOriginal(job, m, bit, x, i, i + 1, j, job.shift, base);
    } else if v.bits[i] == bit {
      ForwardTo(job, m, bit, x, hash, i + 1, j, base);
    } else {
      SiblingPointer(job, m, bit, x, i, j, base);
    }
  }

  // -- one iteration keeps the reader safe ---------------------------------------------------------

  predicate Follows(job: Job, m: Moment, m': Moment) {
    Describes(job, m.t, m.v) && Describes(job, m'.t, m'.v) && Later(m.v, m'.v) && Keeps(m.t, m'.t)
  }

  // The pointer that the reader reads.
  function Pointer(r: Reader, t: Table): Link
    requires r.Walking? && t.Valid() && r.home < t.Size() && r.at < t.Size()
  {
    if r.at < 0 then t.heads[r.home] else t.nexts[r.at]
  }

  // A reader that knows the new shift reads a forward pointer or one astray.
  lemma NewReaderPointer(job: Job, m: Moment, x: nat, hash: nat, r: Reader, base: nat)
    requires Describes(job, m.t, m.v) && Present(job, m, x, hash) && Safe(job, m, x, hash, r, base)
    requires r.Walking? && r.shift == job.shift + 1 && Reached(m.v, BitOf(job, hash), base)
    ensures m.t.Valid() && r.home < m.t.Size() && r.at < m.t.Size()
    ensures var bit, l := BitOf(job, hash), Pointer(r, m.t);
      Forward(job, m, bit, x, l, base) || Astray(job, m, bit, x, l, base)
  {
    hide Describes, BitOf, OnChain, Entered, Forward, Astray;
    var v, bit := m.v, BitOf(job, hash);
    var p := Line(v, bit);
    if r.at < 0 {
      var j :| 0 <= j < |p| && p[j] == x;
      InsertedPointer(job, m, x, hash, 0, j, base);
    } else {
      BitsLength(job, m.t, v);
      var i, j :| 0 <= i < j < |p| && p[i] == r.at && p[j] == x;
      var n := |v.Ins(bit)|;
      if i < n {
        InsertedPointer(job, m, x, hash, i + 1, j, base);
      } else {
        OriginalTarget(job, m, bit, x, hash, j);
        OriginalOwn(job, m.t, v, i - n);
        if v.bits[i - n] != bit { OneHome(job, m.t, bit, r.at); }
        OriginalPointer(job, m, bit, x, hash, i - n, j - n, base);
      }
      HomeInTable(job, m.t, bit);
    }
  }

  lemma HomeInTable(job: Job, t: Table, bit: bool)
    requires job.Ok(t.Size())
    ensures job.Home(bit) < t.Size()
  {
  }

  lemma OneHome(job: Job, t: Table, bit: bool, e: nat)
    requires job.Ok(t.Size()) && Own(job, t, !bit, e)
    ensures !Own(job, t, bit, e)
  {
  }

  // The entry behind a forward pointer, examined at a later moment.
  lemma ForwardLater(job: Job, m: Moment, m': Moment, bit: bool, x: nat, hash: nat, l: Link, base: nat)
    requires Follows(job, m, m') && Present(job, m, x, hash) && bit == BitOf(job, hash)
    requires Forward(job, m, bit, x, l, base)
    ensures m'.t.Valid() && l.next < m'.t.Size() && Forward(job, m', bit, x, l, base)
  {
    hide Describes, BitOf, OnChain, Entered, Later, Keeps, Precedes;
    var e := l.next;
    BitsLength(job, m.t, m.v);
    LaterHere(m.v, m'.v);
    BitsLength(job, m'.t, m'.v);
    LineSuffix(m.v, m'.v, bit);
    if e != x {
      LineMember(job, m, bit, e, x);
      PrecedesSuffix(Line(m.v, bit), Line(m'.v, bit), e, x);
    }
    Occupied(m.t, m'.t, e);
  }

  lemma Occupied(t: Table, t': Table, e: nat)
    requires Keeps(t, t') && e < |t.phase| && !t.phase[e].Free?
    ensures e < |t'.phase| == |t'.hash| && t'.hash[e] == t.hash[e] && !t'.phase[e].Free?
  {
  }

  lemma VisitForward(job: Job, m: Moment, x: nat, hash: nat, full: set<nat>, r: Reader, l: Link, base: nat)
    requires Describes(job, m.t, m.v) && m.t.Valid() && Present(job, m, x, hash) && x in full
    requires Safe(job, m, x, hash, r, base)
    requires r.Walking? && r.shift == job.shift + 1 && l.next < m.t.Size()
    requires Forward(job, m, BitOf(job, hash), x, l, base)
    ensures Safe(job, m, x, hash, Visit(r, hash, full, l, if l.shift < r.shift then job.oldHome else r.home, m.t), base)
  {
    hide Describes, BitOf, Entered, Precedes, Line, OnChain;
    var bit := BitOf(job, hash);
    BitsLength(job, m.t, m.v);
    if Own(job, m.t, !bit, l.next) { OneHome(job, m.t, bit, l.next); }
  }

  lemma VisitAstray(job: Job, m: Moment, m': Moment, x: nat, hash: nat, full: set<nat>, r: Reader, l: Link, base: nat)
    requires Follows(job, m, m') && m'.t.Valid() && Safe(job, m', x, hash, r, base)
    requires !Trapped(m', BitOf(job, hash), x, base)
    requires r.Walking? && r.shift == job.shift + 1 && !l.end && Astray(job, m, BitOf(job, hash), x, l, base)
    ensures Safe(job, m', x, hash, Visit(r, hash, full, l, r.home, m'.t), base)
  {
    hide Describes, BitOf, OnChain, TrapAt, Precedes, Line, Later, Keeps, Entered;
    var bit := BitOf(job, hash);
    BitsLength(job, m.t, m.v);
    LaterHere(m.v, m'.v);
    BitsLength(job, m'.t, m'.v);
    MemberOccupied(job, m, l.next);
    Occupied(m.t, m'.t, l.next);
    OneHome(job, m'.t, bit, l.next);
  }

  lemma MemberOccupied(job: Job, m: Moment, e: nat)
    requires Describes(job, m.t, m.v) && e in m.v.Members()
    ensures e < |m.t.phase| && !m.t.phase[e].Free?
  {
    hide BeforeOk, AfterOk;
    assert MembersOk(m.t, m.v);
  }

  // -- a reader that knows only the old shift --------------------------------------------------------

  predicate OldForward(job: Job, m: Moment, bit: bool, x: nat, l: Link) {
    && l.shift == job.shift && !l.end
    && (l.next == x || Precedes(Line(m.v, bit), l.next, x))
    && l.next < |m.t.hash| && OnChain(job.oldHome, job.shift, m.t.hash[l.next])
  }

  lemma BeforePointer(job: Job, m: Moment, bit: bool, x: nat, k: nat, j: nat)
    requires m.v.Before? && Describes(job, m.t, m.v) && k <= j < |m.v.c| && m.v.c[j] == x
    ensures m.t.Valid() && job.oldHome < m.t.Size() && (k > 0 ==> m.v.c[k - 1] < m.t.Size())
    ensures OldForward(job, m, bit, x, if k == 0 then m.t.heads[job.oldHome] else m.t.nexts[m.v.c[k - 1]])
  {
    hide OnChain, Pow2, MembersOk;
    assert k < j ==> Precedes(Line(m.v, bit), m.v.c[k], x);
  }

  lemma OriginalOldPointer(job: Job, m: Moment, bit: bool, x: nat, i: nat, j: nat)
    requires m.v.After? && Describes(job, m.t, m.v) && i < j < |m.v.c| && m.v.c[j] == x
    ensures m.t.Valid() && m.v.c[i] < m.t.Size()
    ensures var l := m.t.nexts[m.v.c[i]]; l.shift == job.shift + 1 || OldForward(job, m, bit, x, l)
  {
    hide BitOf, OnChain, NextOf, HeadOk, MembersOk, Precedes, Line, Pow2;
    assert PointerOk(job, m.t, m.v, i);
    OriginalOwn(job, m.t, m.v, i + 1);
    if i + 1 < j { LinePrecedes(m.v, bit, i + 1, j); }
  }

  lemma OldReaderPointer(job: Job, m: Moment, x: nat, hash: nat, r: Reader, base: nat)
    requires Describes(job, m.t, m.v) && Present(job, m, x, hash) && Safe(job, m, x, hash, r, base)
    requires r.Walking? && r.shift == job.shift
    ensures m.t.Valid() && r.home < m.t.Size() && r.at < m.t.Size()
    ensures var l := Pointer(r, m.t);
      (m.v.After? && l.shift == job.shift + 1) || OldForward(job, m, BitOf(job, hash), x, l)
  {
    hide Describes, BitOf, OnChain, OldForward;
    var v, bit := m.v, BitOf(job, hash);
    var p := Line(v, bit);
    DescribesShape(job, m.t, v);
    if r.at < 0 {
      var j :| 0 <= j < |p| && p[j] == x;
      if v.Before? { BeforePointer(job, m, bit, x, 0, j); } else { HeadsShift(job, m.t, v); }
    } else {
      var i, j :| 0 <= i < j < |p| && p[i] == r.at && p[j] == x;
      if v.Before? {
        BeforePointer(job, m, bit, x, i + 1, j);
      } else if i < |v.Ins(bit)| {
        InsertedLink(job, m.t, v, bit, i + 1);
      } else {
        OriginalOldPointer(job, m, bit, x, i - |v.Ins(bit)|, j - |v.Ins(bit)|);
      }
    }
  }

  lemma VisitOld(job: Job, m: Moment, m': Moment, x: nat, hash: nat, full: set<nat>, r: Reader, l: Link, base: nat)
    requires Follows(job, m, m') && m'.t.Valid() && Present(job, m, x, hash) && Present(job, m', x, hash) && x in full
    requires Safe(job, m', x, hash, r, base) && job.shift > 0
    requires r.Walking? && r.shift == job.shift && OldForward(job, m, BitOf(job, hash), x, l)
    ensures Safe(job, m', x, hash, Visit(r, hash, full, l, r.home, m'.t), base)
  {
    hide Describes, BitOf, OnChain, Precedes, Line, Later, Keeps;
    var bit := BitOf(job, hash);
    if l.next != x {
      LineMember(job, m, bit, l.next, x);
      LineSuffix(m.v, m'.v, bit);
      PrecedesSuffix(Line(m.v, bit), Line(m'.v, bit), l.next, x);
      Occupied(m.t, m'.t, l.next);
    }
  }

  // -- every iteration, every run --------------------------------------------------------------------

  // An iteration that reads its pointer at moment m and the entry at a moment m'
  // that is not earlier keeps the reader safe.
  lemma SafeStep(job: Job, m: Moment, m': Moment, x: nat, hash: nat, full: set<nat>, r: Reader, base: nat)
    requires Follows(job, m, m') && Present(job, m, x, hash) && Present(job, m', x, hash) && x in full
    requires m.t.Valid() && m'.t.Valid() && job.shift > 0 && Reached(m.v, BitOf(job, hash), base)
    requires Safe(job, m, x, hash, r, base) && !Trapped(m', BitOf(job, hash), x, base)
    ensures Safe(job, m', x, hash, Iterate(r, hash, full, m.t, m'.t), base)
  {
    hide Describes, Present, Forward, Astray, OldForward, Visit, Trapped, Later, Keeps, BitOf, OnChain, Entered;
    hide Precedes;
    SafeLater(job, m, m', x, hash, r, base);
    if r.Walking? {
      var bit := BitOf(job, hash);
      DescribesShape(job, m.t, m.v);
      BitHome(job, m.t.Size(), m, x, hash);
      if r.shift == job.shift {
        OldReaderPointer(job, m, x, hash, r, base);
        var l := Pointer(r, m.t);
        OldLinkShape(job, m, bit, x, l);
        if l.shift == job.shift + 1 {
          LaterHere(m.v, m'.v);
          BitsLength(job, m'.t, m'.v);
        } else {
          VisitOld(job, m, m', x, hash, full, r, l, base);
        }
      } else {
        NewReaderPointer(job, m, x, hash, r, base);
        NewStep(job, m, m', x, hash, full, r, base);
      }
    }
  }

  lemma BitHome(job: Job, n: nat, m: Moment, x: nat, hash: nat)
    requires job.Ok(n) && Present(job, m, x, hash)
    ensures hash % Pow2(job.shift + 1) == job.Home(BitOf(job, hash))
  {
    HomeBit(job, n, hash);
  }

  lemma OldLinkShape(job: Job, m: Moment, bit: bool, x: nat, l: Link)
    ensures OldForward(job, m, bit, x, l) ==> l.shift == job.shift && !l.end
  {
  }

  lemma NewStep(job: Job, m: Moment, m': Moment, x: nat, hash: nat, full: set<nat>, r: Reader, base: nat)
    requires Follows(job, m, m') && Present(job, m, x, hash) && Present(job, m', x, hash) && x in full
    requires m.t.Valid() && m'.t.Valid() && job.shift > 0 && job.Ok(m.t.Size())
    requires Safe(job, m', x, hash, r, base) && !Trapped(m', BitOf(job, hash), x, base)
    requires r.Walking? && r.shift == job.shift + 1 && r.home < m.t.Size() && r.at < m.t.Size()
    requires var bit, l := BitOf(job, hash), Pointer(r, m.t);
      Forward(job, m, bit, x, l, base) || Astray(job, m, bit, x, l, base)
    ensures Safe(job, m', x, hash, Iterate(r, hash, full, m.t, m'.t), base)
  {
    hide Describes, Present, Visit, Trapped, Later, Keeps, BitOf, OnChain, Entered, Precedes, TrapAt, Line;
    var bit, l := BitOf(job, hash), Pointer(r, m.t);
    OldHomeOf(job, m.t.Size(), bit);
    if Forward(job, m, bit, x, l, base) {
      ForwardLater(job, m, m', bit, x, hash, l, base);
      VisitForward(job, m', x, hash, full, r, l, base);
    } else if !l.end {
      VisitAstray(job, m, m', x, hash, full, r, l, base);
    }
  }

  // The old home of either new home.
  lemma OldHomeOf(job: Job, n: nat, bit: bool)
    requires job.Ok(n)
    ensures job.Home(bit) % Pow2(job.shift) == job.oldHome && job.Home(bit) != job.Home(!bit)
  {
    if bit { ModAddSelf(job.oldHome, Pow2(job.shift)); }
    SmallMod(job.oldHome, Pow2(job.shift));
  }

  // When each iteration reads its pointer and its entry, as positions in the log.
  datatype Read = Read(pointer: nat, entry: nat)

  predicate InOrder(n: nat, times: seq<Read>) {
    && (forall i :: 0 <= i < |times| ==> times[i].pointer <= times[i].entry < n)
    && (forall i, j :: 0 <= i < j < |times| ==> times[i].entry <= times[j].pointer)
  }

  // The whole loop: the reader after these iterations.
  ghost function Run(job: Job, log: seq<Moment>, r: Reader, hash: nat, full: set<nat>, times: seq<Read>): Reader
    requires History(job, log) && InOrder(|log|, times)
    decreases |times|
  {
    if times == [] then r
    else
      var m, m' := log[times[0].pointer], log[times[0].entry];
      if m.t.Valid() && m'.t.Valid() then
        Run(job, log, Iterate(r, hash, full, m.t, m'.t), hash, full, times[1..])
      else r
  }

  lemma HistoryFollows(job: Job, log: seq<Moment>, i: nat, j: nat)
    requires History(job, log) && i <= j < |log|
    ensures Follows(job, log[i], log[j]) && log[i].t.Valid() && log[j].t.Valid()
  {
    hide Later, Keeps, BeforeOk, AfterOk, MembersOk;
    LaterSame(log[i].v);
    if i == j { KeepsSame(log[i].t); }
  }

  lemma KeepsSame(t: Table)
    requires t.Valid()
    ensures Keeps(t, t)
  {
  }

  // A lookup starts at the head of its home, at the shift that the published
  // length suggests: the old one, or the new one once the heads are migrated.
  predicate Start(job: Job, m: Moment, hash: nat, r: Reader) {
    || r == Walking(job.oldHome, job.shift, -1, -1)
    || (r == Walking(job.Home(BitOf(job, hash)), job.shift + 1, -1, -1) && m.v.After?)
  }

  lemma SafeNotMissed(job: Job, m: Moment, x: nat, hash: nat, r: Reader, base: nat)
    requires Safe(job, m, x, hash, r, base)
    ensures !r.Missed?
  {
  }

  lemma FollowsHas(job: Job, m: Moment, m': Moment)
    requires Follows(job, m, m')
    ensures Describes(job, m.t, m.v) && Describes(job, m'.t, m'.v) && Later(m.v, m'.v) && Keeps(m.t, m'.t)
  {
  }

  // As long as the trap is never set, no lookup of a live linked entry reports a
  // miss, whatever it reads and whenever it reads it.
  lemma {:induction false} NeverMisses(job: Job, log: seq<Moment>, times: seq<Read>, x: nat, hash: nat, full: set<nat>,
                                       r: Reader, base: nat)
    requires History(job, log) && log != [] && InOrder(|log|, times) && job.shift > 0 && x in full
    requires forall k :: 0 <= k < |log| ==> Present(job, log[k], x, hash) && !Trapped(log[k], BitOf(job, hash), x, base)
    requires forall k :: 0 <= k < |log| ==> Reached(log[k].v, BitOf(job, hash), base)
    requires if times == [] then !r.Missed? else Safe(job, log[times[0].pointer], x, hash, r, base)
    ensures !Run(job, log, r, hash, full, times).Missed?
    decreases |times|
  {
    hide Present, Trapped, Iterate, History, Safe, Follows;
    if times != [] {
      var i, j := times[0].pointer, times[0].entry;
      HistoryFollows(job, log, i, j);
      SafeStep(job, log[i], log[j], x, hash, full, r, base);
      var r' := Iterate(r, hash, full, log[i].t, log[j].t);
      var rest := times[1..];
      assert InOrder(|log|, rest);
      if rest != [] {
        assert rest[0] == times[1];
        HistoryFollows(job, log, j, rest[0].pointer);
        FollowsHas(job, log[j], log[rest[0].pointer]);
        SafeLater(job, log[j], log[rest[0].pointer], x, hash, r', base);
      }
      SafeNotMissed(job, log[j], x, hash, r', base);
      NeverMisses(job, log, rest, x, hash, full, r', base);
    }
  }

  lemma StartSafe(job: Job, m: Moment, x: nat, hash: nat, r: Reader, base: nat)
    requires Describes(job, m.t, m.v) && Start(job, m, hash, r)
    ensures Safe(job, m, x, hash, r, base)
  {
    hide OnChain, BitOf;
    if m.v.After? { BitsLength(job, m.t, m.v); }
  }

  // What the reader holds it has examined: e was live in the table in which it was looked
  // at, and has the full key.
  ghost predicate Matched(log: seq<Moment>, full: set<nat>, times: seq<Read>, e: nat) {
    && e in full
    && exists i :: 0 <= i < |times| && times[i].entry < |log| && e < |log[times[i].entry].t.phase|
         && log[times[i].entry].t.phase[e].Live?
  }

  lemma IterateFound(r: Reader, hash: nat, full: set<nat>, tp: Table, tm: Table)
    requires tp.Valid() && tm.Valid() && !r.Found? && Iterate(r, hash, full, tp, tm).Found?
    ensures var e := Iterate(r, hash, full, tp, tm).entry; e in full && e < |tm.phase| && tm.phase[e].Live?
  {
  }

  lemma {:induction false} FoundStays(
      job: Job, log: seq<Moment>, r: Reader, hash: nat, full: set<nat>, times: seq<Read>)
    requires History(job, log) && InOrder(|log|, times) && r.Found?
    ensures Run(job, log, r, hash, full, times) == r
    decreases |times|
  {
    if times != [] { FoundStays(job, log, r, hash, full, times[1..]); }
  }

  // A lookup that returns an entry returns one that matched, in every history and
  // whenever it reads.
  lemma {:induction false} FoundMatches(
      job: Job, log: seq<Moment>, r: Reader, hash: nat, full: set<nat>, times: seq<Read>)
    requires History(job, log) && InOrder(|log|, times) && !r.Found?
    requires Run(job, log, r, hash, full, times).Found?
    ensures Matched(log, full, times, Run(job, log, r, hash, full, times).entry)
    decreases |times|
  {
    hide History, Iterate;
    var m, m', rest := log[times[0].pointer], log[times[0].entry], times[1..];
    var next := Iterate(r, hash, full, m.t, m'.t);
    if next.Found? {
      IterateFound(r, hash, full, m.t, m'.t);
      FoundStays(job, log, next, hash, full, rest);
    } else {
      FoundMatches(job, log, next, hash, full, rest);
      var e := Run(job, log, next, hash, full, rest).entry;
      var i :| 0 <= i < |rest| && rest[i].entry < |log| && e < |log[rest[i].entry].t.phase|
        && log[rest[i].entry].t.phase[e].Live?;
      assert times[i + 1] == rest[i];
    }
  }

  // It moves onto an entry that is live and on its own chain only with a reference to it.
  lemma KeepsReference(r: Reader, hash: nat, full: set<nat>, tp: Table, tm: Table)
    requires tp.Valid() && tm.Valid() && r.Walking? && r.shift > 0
    ensures var r' := Iterate(r, hash, full, tp, tm);
      r'.Walking? && 0 <= r'.at < tm.Size() && r'.at != r.at && tm.phase[r'.at].Live?
      && r'.shift == r.shift && OnChain(r.home, r.shift, tm.hash[r'.at])
      ==> r'.held == r'.at
  {
  }
}
