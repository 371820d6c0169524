// The LRU list of LRUCacheShard: an intrusive circular doubly linked list with a
// dummy node, cut into three pools by the pointers lru_bottom_pri_ and
// lru_low_pri_. Handles are array indices; node 0 is the dummy.
module LruList {

  datatype Pool = Bottom | Low | High

  predicate Distinct(p: seq<nat>) {
    forall i, j :: 0 <= i < j < |p| ==> p[i] != p[j]
  }

  predicate InRange(n: nat, p: seq<nat>) {
    forall k :: 0 <= k < |p| ==> p[k] < n
  }

  function Total(charge: seq<nat>, p: seq<nat>): nat
    requires InRange(|charge|, p)
  {
    if p == [] then 0 else charge[p[0]] + Total(charge, p[1..])
  }

  lemma {:induction false} TotalConcat(charge: seq<nat>, p: seq<nat>, q: seq<nat>)
    requires InRange(|charge|, p) && InRange(|charge|, q)
    ensures Total(charge, p + q) == Total(charge, p) + Total(charge, q)
  {
    if p == [] {
      assert p + q == q;
    } else {
      assert (p + q)[0] == p[0] && (p + q)[1..] == p[1..] + q;
      TotalConcat(charge, p[1..], q);
    }
  }

  lemma TotalOne(charge: seq<nat>, e: nat)
    requires e < |charge|
    ensures Total(charge, [e]) == charge[e]
  {
    assert [e][1..] == [];
  }

  // -- links ------------------------------------------------------------------------------------

  // Once around the ring, from the dummy back to the dummy.
  function Ring(l: seq<nat>): seq<nat> { [0] + l + [0] }

  predicate Links(nexts: seq<nat>, prevs: seq<nat>, r: seq<nat>) {
    && |nexts| == |prevs| && InRange(|nexts|, r)
    && forall k :: 0 < k < |r| ==> nexts[r[k - 1]] == r[k] && prevs[r[k]] == r[k - 1]
  }

  // A ring visits each node once.
  predicate Simple(r: seq<nat>) {
    && |r| >= 2
    && (forall i, j :: 0 <= i < j < |r| - 1 ==> r[i] != r[j])
    && (forall i, j :: 0 < i < j < |r| ==> r[i] != r[j])
  }

  lemma RingSimple(l: seq<nat>)
    requires Distinct(l) && 0 !in l
    ensures Simple(Ring(l))
  {
    var r := Ring(l);
    forall i | 0 < i < |r| - 1 ensures r[i] == l[i - 1] && r[i] in l {}
  }

  // Unlinking the node at position p.
  lemma Unlink(nexts: seq<nat>, prevs: seq<nat>, r: seq<nat>, p: nat)
    requires Links(nexts, prevs, r) && Simple(r) && 0 < p < |r| - 1
    ensures r[p - 1] < |nexts| && r[p + 1] < |prevs|
    ensures Links(nexts[r[p - 1] := r[p + 1]], prevs[r[p + 1] := r[p - 1]], r[..p] + r[p + 1..])
  {
    var nexts', prevs', r' := nexts[r[p - 1] := r[p + 1]], prevs[r[p + 1] := r[p - 1]], r[..p] + r[p + 1..];
    forall k | 0 < k < |r'| ensures nexts'[r'[k - 1]] == r'[k] && prevs'[r'[k]] == r'[k - 1] {
      if k < p { assert r'[k] == r[k] && r'[k - 1] == r[k - 1]; }
      else if k == p { assert r'[k] == r[p + 1] && r'[k - 1] == r[p - 1]; }
      else { assert r'[k] == r[k + 1] && r'[k - 1] == r[k]; }
    }
  }

  // Linking node e between positions p - 1 and p.
  lemma Link(nexts: seq<nat>, prevs: seq<nat>, r: seq<nat>, p: nat, e: nat)
    requires Links(nexts, prevs, r) && Simple(r) && 0 < p < |r| && e < |nexts| && e !in r
    ensures r[p - 1] < |nexts| && r[p] < |prevs|
    ensures Links(nexts[e := r[p]][r[p - 1] := e], prevs[e := r[p - 1]][r[p] := e], r[..p] + [e] + r[p..])
  {
    var nexts', prevs', r' := nexts[e := r[p]][r[p - 1] := e], prevs[e := r[p - 1]][r[p] := e], r[..p] + [e] + r[p..];
    forall k | 0 < k < |r'| ensures nexts'[r'[k - 1]] == r'[k] && prevs'[r'[k]] == r'[k - 1] {
      if k < p { assert r'[k] == r[k] && r'[k - 1] == r[k - 1]; }
      else if k == p { assert r'[k] == e && r'[k - 1] == r[p - 1]; }
      else if k == p + 1 { assert r'[k] == r[p] && r'[k - 1] == e; }
      else { assert r'[k] == r[k - 1] && r'[k - 1] == r[k - 2]; }
    }
  }

  // -- the three pools ----------------------------------------------------------------------------

  // The list from its oldest entry: bottom-, low- and high-priority pool.
  datatype Segments = Segments(bottom: seq<nat>, low: seq<nat>, high: seq<nat>) {
    function All(): seq<nat> { bottom + low + high }
    function Of(pool: Pool): seq<nat> { match pool case Bottom => bottom case Low => low case High => high }
  }

  predicate InCharge(charge: seq<nat>, s: Segments) {
    InRange(|charge|, s.bottom) && InRange(|charge|, s.low) && InRange(|charge|, s.high)
  }

  // Overflow the oldest entries of the high pool into the low pool.
  function SpillHigh(charge: seq<nat>, cap: nat, s: Segments): (r: Segments)
    requires InCharge(charge, s)
    ensures InCharge(charge, r)
    decreases |s.high|
  {
    if Total(charge, s.high) <= cap || s.high == [] then s
    else SpillHigh(charge, cap, Segments(s.bottom, s.low + [s.high[0]], s.high[1..]))
  }

  // Overflow the oldest entries of the low pool into the bottom pool.
  function SpillLow(charge: seq<nat>, cap: nat, s: Segments): (r: Segments)
    requires InCharge(charge, s)
    ensures InCharge(charge, r)
    decreases |s.low|
  {
    if Total(charge, s.low) <= cap || s.low == [] then s
    else SpillLow(charge, cap, Segments(s.bottom + [s.low[0]], s.low[1..], s.high))
  }

  function Maintain(charge: seq<nat>, highCap: nat, lowCap: nat, s: Segments): Segments
    requires InCharge(charge, s)
  {
    SpillLow(charge, lowCap, SpillHigh(charge, highCap, s))
  }

  lemma MoveFirst(a: seq<nat>, b: seq<nat>)
    requires b != []
    ensures a + [b[0]] + b[1..] == a + b
  {
  }

  // Spilling keeps the order of the list, restores the bound, and spills no more
  // than needed: with the last spilled entry the pool would be over its capacity.
  lemma {:induction false} SpillHighOk(charge: seq<nat>, cap: nat, s: Segments)
    requires InCharge(charge, s)
    ensures var r := SpillHigh(charge, cap, s);
      && r.All() == s.All() && r.bottom == s.bottom && Total(charge, r.high) <= cap
      && (r == s || (|r.low| > |s.low| && charge[r.low[|r.low| - 1]] + Total(charge, r.high) > cap))
    decreases |s.high|
  {
    if Total(charge, s.high) > cap {
      var next := Segments(s.bottom, s.low + [s.high[0]], s.high[1..]);
      SpillHighOk(charge, cap, next);
      MoveFirst(s.bottom + s.low, s.high);
      assert s.bottom + (s.low + [s.high[0]]) == s.bottom + s.low + [s.high[0]];
    }
  }

  lemma {:induction false} SpillLowOk(charge: seq<nat>, cap: nat, s: Segments)
    requires InCharge(charge, s)
    ensures var r := SpillLow(charge, cap, s);
      && r.All() == s.All() && r.high == s.high && Total(charge, r.low) <= cap
      && (r == s || (|r.bottom| > |s.bottom| && charge[r.bottom[|r.bottom| - 1]] + Total(charge, r.low) > cap))
    decreases |s.low|
  {
    if Total(charge, s.low) > cap {
      var next := Segments(s.bottom + [s.low[0]], s.low[1..], s.high);
      SpillLowOk(charge, cap, next);
      MoveFirst(s.bottom, s.low);
    }
  }

  // What MaintainPoolSize promises.
  lemma MaintainOk(charge: seq<nat>, highCap: nat, lowCap: nat, s: Segments)
    requires InCharge(charge, s)
    ensures var r := Maintain(charge, highCap, lowCap, s);
      && r.All() == s.All() && Total(charge, r.high) <= highCap && Total(charge, r.low) <= lowCap
      && (Total(charge, s.high) <= highCap && Total(charge, s.low) <= lowCap ==> r == s)
  {
    SpillHighOk(charge, highCap, s);
    SpillLowOk(charge, lowCap, SpillHigh(charge, highCap, s));
  }

  // p without its entry e.
  function Minus(p: seq<nat>, e: nat): seq<nat> {
    if p == [] then [] else if p[0] == e then p[1..] else [p[0]] + Minus(p[1..], e)
  }

  lemma {:induction false} MinusFirst(p: seq<nat>, i: nat)
    requires i < |p| && forall k :: 0 <= k < i ==> p[k] != p[i]
    ensures Minus(p, p[i]) == p[..i] + p[i + 1..]
  {
    if i > 0 {
      assert p[1..][i - 1] == p[i] && p[0] != p[i];
      MinusFirst(p[1..], i - 1);
      assert [p[0]] + (p[1..][..i - 1] + p[1..][i..]) == p[..i] + p[i + 1..];
    }
  }

  lemma MinusAt(p: seq<nat>, i: nat)
    requires i < |p| && Distinct(p)
    ensures Minus(p, p[i]) == p[..i] + p[i + 1..]
  {
    MinusFirst(p, i);
  }

  lemma {:induction false} MinusNone(p: seq<nat>, e: nat)
    requires e !in p
    ensures Minus(p, e) == p
  {
    if p != [] {
      MinusNone(p[1..], e);
      assert [p[0]] + p[1..] == p;
    }
  }

  lemma {:induction false} TotalMinus(charge: seq<nat>, p: seq<nat>, e: nat)
    requires InRange(|charge|, p) && e in p
    ensures InRange(|charge|, Minus(p, e)) && Total(charge, Minus(p, e)) + charge[e] == Total(charge, p)
  {
    if p[0] != e {
      TotalMinus(charge, p[1..], e);
      assert ([p[0]] + Minus(p[1..], e))[1..] == Minus(p[1..], e);
    }
  }

  lemma {:induction false} MinusSub(p: seq<nat>, e: nat)
    requires Distinct(p)
    ensures Distinct(Minus(p, e)) && forall x :: x in Minus(p, e) <==> x in p && x != e
    ensures forall k :: 0 <= k < |Minus(p, e)| ==> Minus(p, e)[k] in p
  {
    if e in p {
      var i := Index(p, e);
      MinusAt(p, i);
    } else {
      MinusNone(p, e);
    }
  }

  lemma {:induction false} MinusConcat(p: seq<nat>, q: seq<nat>, e: nat)
    requires Distinct(p + q)
    ensures Minus(p + q, e) == Minus(p, e) + Minus(q, e)
  {
    if p == [] {
      assert p + q == q;
    } else {
      assert (p + q)[0] == p[0] && (p + q)[1..] == p[1..] + q;
      assert Distinct(p[1..] + q) by { DistinctTail(p + q); }
      MinusConcat(p[1..], q, e);
      if p[0] == e {
        forall k | 0 <= k < |q| ensures q[k] != e { assert (p + q)[|p| + k] == q[k]; }
        MinusNone(q, e);
      } else {
        assert [p[0]] + (Minus(p[1..], e) + Minus(q, e)) == [p[0]] + Minus(p[1..], e) + Minus(q, e);
      }
    }
  }

  lemma DistinctTail(p: seq<nat>)
    requires Distinct(p) && p != []
    ensures Distinct(p[1..])
  {
  }

  ghost function Index(p: seq<nat>, e: nat): (i: nat)
    requires e in p
    ensures i < |p| && p[i] == e
  {
    var i: nat :| i < |p| && p[i] == e;
    i
  }

  // -- the list in memory ---------------------------------------------------------------------------

  function Last(p: seq<nat>): nat
    requires p != []
  {
    p[|p| - 1]
  }

  predicate PoolsOk(pool: seq<Pool>, charge: seq<nat>, s: Segments) {
    && |pool| == |charge| && InCharge(charge, s)
    && (forall i :: 0 <= i < |s.bottom| ==> pool[s.bottom[i]] == Bottom)
    && (forall i :: 0 <= i < |s.low| ==> pool[s.low[i]] == Low)
    && (forall i :: 0 <= i < |s.high| ==> pool[s.high[i]] == High)
  }

  predicate ListOk(nexts: seq<nat>, prevs: seq<nat>, s: Segments) {
    Links(nexts, prevs, Ring(s.All())) && Distinct(s.All()) && 0 !in s.All()
  }

  lemma Neighbours(nexts: seq<nat>, prevs: seq<nat>, r: seq<nat>, p: nat)
    requires Links(nexts, prevs, r) && 0 < p < |r| - 1
    ensures r[p] < |nexts| == |prevs| && r[p - 1] < |nexts| && r[p + 1] < |nexts|
    ensures nexts[r[p]] == r[p + 1] && prevs[r[p]] == r[p - 1]
  {
    assert prevs[r[p]] == r[p - 1];
    var k := p + 1;
    assert nexts[r[k - 1]] == r[k];
  }

  // The neighbours of an entry, and the list without it.
  lemma RemoveLinks(nexts: seq<nat>, prevs: seq<nat>, s: Segments, i: nat)
    requires ListOk(nexts, prevs, s) && i < |s.All()|
    ensures var l := s.All();
      && l[i] < |nexts| == |prevs| && nexts[l[i]] == Ring(l)[i + 2] < |nexts| && prevs[l[i]] == Ring(l)[i] < |nexts|
      && Links(nexts[Ring(l)[i] := Ring(l)[i + 2]], prevs[Ring(l)[i + 2] := Ring(l)[i]], Ring(Minus(l, l[i])))
      && 0 !in Minus(l, l[i])
  {
    hide Links, Distinct, Simple, Minus;
    var l := s.All();
    RingSimple(l);
    assert Ring(l)[i + 1] == l[i];
    Neighbours(nexts, prevs, Ring(l), i + 1);
    Unlink(nexts, prevs, Ring(l), i + 1);
    MinusAt(l, i);
    assert Ring(l)[..i + 1] + Ring(l)[i + 2..] == Ring(Minus(l, l[i]));
    MinusSub(l, l[i]);
  }

  // The end of a leading part q of the list, after removing the entry at i.
  lemma LastMinus(l: seq<nat>, q: seq<nat>, i: nat)
    requires Distinct(l) && 0 !in l && i < |l| && q <= l
    ensures Last([0] + Minus(q, l[i])) == if Last([0] + q) == l[i] then Ring(l)[i] else Last([0] + q)
  {
    var e := l[i];
    if i < |q| {
      assert q[i] == e && Distinct(q);
      MinusAt(q, i);
      assert Last([0] + q) == q[|q| - 1];
      if i == |q| - 1 {
        assert Minus(q, e) == q[..i];
        assert Ring(l)[i] == ([0] + q[..i])[i];
      } else {
        assert Last([0] + Minus(q, e)) == q[|q| - 1];
      }
    } else {
      forall k | 0 <= k < |q| ensures q[k] != e { assert q[k] == l[k]; }
      MinusNone(q, e);
    }
  }

  // What removing e does to pools and totals.
  lemma RemovePools(pool: seq<Pool>, charge: seq<nat>, s: Segments, e: nat)
    requires PoolsOk(pool, charge, s) && Distinct(s.All()) && e in s.All()
    ensures var r := Segments(Minus(s.bottom, e), Minus(s.low, e), Minus(s.high, e));
      && PoolsOk(pool, charge, r) && InCharge(charge, r) && r.All() == Minus(s.All(), e) && Distinct(r.All())
      && InRange(|charge|, s.All())
      && e < |pool| && Minus(s.bottom + s.low, e) == r.bottom + r.low
      && Total(charge, r.high) == Total(charge, s.high) - (if pool[e].High? then charge[e] else 0)
      && Total(charge, r.low) == Total(charge, s.low) - (if pool[e].Low? then charge[e] else 0)
      && Total(charge, r.All()) == Total(charge, s.All()) - charge[e]
  {
    hide Total, Minus, Distinct, PoolsOk, InRange;
    Parts(s);
    MinusConcat(s.bottom + s.low, s.high, e);
    MinusConcat(s.bottom, s.low, e);
    MinusSub(s.All(), e);
    PoolsHere(pool, charge, s, e);
    MinusRange(|charge|, s.bottom, e);
    MinusRange(|charge|, s.low, e);
    MinusRange(|charge|, s.high, e);
    TotalAll(charge, s);
    TotalMinus(charge, s.All(), e);
    if e in s.high { TotalMinus(charge, s.high, e); } else { MinusNone(s.high, e); }
    if e in s.low { TotalMinus(charge, s.low, e); } else { MinusNone(s.low, e); }
    SubPools(pool, charge, s, Segments(Minus(s.bottom, e), Minus(s.low, e), Minus(s.high, e)));
  }

  // The pool flag of an entry tells where it is.
  lemma PoolsHere(pool: seq<Pool>, charge: seq<nat>, s: Segments, e: nat)
    requires PoolsOk(pool, charge, s) && (e in s.bottom || e in s.low || e in s.high)
    ensures InCharge(charge, s) && e < |pool| == |charge|
    ensures (e in s.high <==> pool[e] == High) && (e in s.low <==> pool[e] == Low)
  {
  }

  lemma MinusRange(n: nat, p: seq<nat>, e: nat)
    requires InRange(n, p) && Distinct(p)
    ensures InRange(n, Minus(p, e)) && forall k :: 0 <= k < |Minus(p, e)| ==> Minus(p, e)[k] in p
  {
    MinusSub(p, e);
  }

  // Shorter pools.
  lemma SubPools(pool: seq<Pool>, charge: seq<nat>, s: Segments, r: Segments)
    requires PoolsOk(pool, charge, s) && InCharge(charge, r)
    requires forall k :: 0 <= k < |r.bottom| ==> r.bottom[k] in s.bottom
    requires forall k :: 0 <= k < |r.low| ==> r.low[k] in s.low
    requires forall k :: 0 <= k < |r.high| ==> r.high[k] in s.high
    ensures PoolsOk(pool, charge, r)
  {
  }

  // The pools of a list without repetitions.
  lemma Parts(s: Segments)
    requires Distinct(s.All())
    ensures Distinct(s.bottom) && Distinct(s.low) && Distinct(s.high) && Distinct(s.bottom + s.low)
    ensures forall e :: e in s.All() <==> e in s.bottom || e in s.low || e in s.high
  {
    var l, m := s.All(), s.bottom + s.low;
    assert forall i :: 0 <= i < |m| ==> m[i] == l[i];
    assert forall i :: 0 <= i < |s.high| ==> s.high[i] == l[|m| + i];
    assert forall i :: 0 <= i < |s.bottom| ==> s.bottom[i] == m[i];
    assert forall i :: 0 <= i < |s.low| ==> s.low[i] == m[|s.bottom| + i];
  }

  // The list with e put in at the newest end of a pool.
  function Placed(s: Segments, e: nat, pool: Pool): Segments {
    match pool
    case Bottom => s.(bottom := s.bottom + [e])
    case Low => s.(low := s.low + [e])
    case High => s.(high := s.high + [e])
  }

  // How many entries precede that place.
  function PlaceOf(s: Segments, pool: Pool): nat {
    match pool
    case Bottom => |s.bottom|
    case Low => |s.bottom + s.low|
    case High => |s.All()|
  }

  lemma PlacedAll(s: Segments, e: nat, pool: Pool)
    ensures PlaceOf(s, pool) <= |s.All()|
    ensures Placed(s, e, pool).All() == s.All()[..PlaceOf(s, pool)] + [e] + s.All()[PlaceOf(s, pool)..]
  {
    match pool
    case Bottom =>
      assert s.All()[..|s.bottom|] == s.bottom && s.All()[|s.bottom|..] == s.low + s.high;
      assert s.bottom + [e] + s.low + s.high == s.bottom + [e] + (s.low + s.high);
    case Low =>
      var m := s.bottom + s.low;
      assert s.All()[..|m|] == m && s.All()[|m|..] == s.high;
      assert s.bottom + (s.low + [e]) == m + [e];
    case High =>
      assert s.All()[..|s.All()|] == s.All() && s.All()[|s.All()|..] == [];
      assert s.bottom + s.low + (s.high + [e]) == s.All() + [e];
      assert s.All() + [e] + [] == s.All() + [e];
  }

  lemma InsertLinks(nexts: seq<nat>, prevs: seq<nat>, s: Segments, e: nat, pool: Pool)
    requires ListOk(nexts, prevs, s) && e !in s.All() && 0 < e < |nexts|
    ensures var r, p := Ring(s.All()), PlaceOf(s, pool);
      && p + 1 < |r| && r[p] < |nexts| == |prevs| && r[p + 1] < |nexts| && nexts[r[p]] == r[p + 1]
      && prevs[r[p + 1]] == r[p]
      && ListOk(nexts[e := r[p + 1]][r[p] := e], prevs[e := r[p]][r[p + 1] := e], Placed(s, e, pool))
  {
    hide Links, Distinct, Simple, Placed, PlaceOf;
    var l, r, p := s.All(), Ring(s.All()), PlaceOf(s, pool);
    PlacedAll(s, e, pool);
    RingSimple(l);
    RingHas(l, e);
    LinkHere(nexts, prevs, r, p + 1);
    Link(nexts, prevs, r, p + 1, e);
    var l' := l[..p] + [e] + l[p..];
    assert r[..p + 1] + [e] + r[p + 1..] == Ring(l') by {
      assert r[..p + 1] == [0] + l[..p] && r[p + 1..] == l[p..] + [0];
      assert [0] + l[..p] + [e] + (l[p..] + [0]) == [0] + (l[..p] + [e] + l[p..]) + [0];
    }
    DistinctInsert(l, p, e);
  }

  lemma LinkHere(nexts: seq<nat>, prevs: seq<nat>, r: seq<nat>, k: nat)
    requires Links(nexts, prevs, r) && 0 < k < |r|
    ensures r[k - 1] < |nexts| == |prevs| && r[k] < |nexts| && nexts[r[k - 1]] == r[k] && prevs[r[k]] == r[k - 1]
  {
  }

  lemma RingHas(l: seq<nat>, e: nat)
    requires e !in l && e > 0
    ensures e !in Ring(l)
  {
  }

  lemma DistinctInsert(l: seq<nat>, p: nat, e: nat)
    requires Distinct(l) && p <= |l| && e !in l && 0 !in l && e > 0
    ensures Distinct(l[..p] + [e] + l[p..]) && 0 !in l[..p] + [e] + l[p..]
  {
    var m := l[..p] + [e] + l[p..];
    forall k | 0 <= k < |m| ensures m[k] == if k < p then l[k] else if k == p then e else l[k - 1] {}
  }

  // What placing e does to pools and totals.
  lemma InsertPools(pools: seq<Pool>, charge: seq<nat>, s: Segments, e: nat, pool: Pool)
    requires PoolsOk(pools, charge, s) && e !in s.All() && e < |charge|
    ensures var r := Placed(s, e, pool);
      && PoolsOk(pools[e := pool], charge, r) && InCharge(charge, r) && InRange(|charge|, s.All())
      && InRange(|charge|, r.All())
      && Total(charge, r.high) == Total(charge, s.high) + (if pool.High? then charge[e] else 0)
      && Total(charge, r.low) == Total(charge, s.low) + (if pool.Low? then charge[e] else 0)
      && Total(charge, r.All()) == Total(charge, s.All()) + charge[e]
  {
    hide Total;
    var r := Placed(s, e, pool);
    NotIn(s, e);
    TotalOne(charge, e);
    TotalConcat(charge, s.Of(pool), [e]);
    TotalAll(charge, s);
    TotalAll(charge, r);
  }

  lemma NotIn(s: Segments, e: nat)
    requires e !in s.All()
    ensures forall i :: 0 <= i < |s.bottom| ==> s.bottom[i] != e
    ensures forall i :: 0 <= i < |s.low| ==> s.low[i] != e
    ensures forall i :: 0 <= i < |s.high| ==> s.high[i] != e
  {
    var l := s.All();
    assert forall i :: 0 <= i < |s.bottom| ==> s.bottom[i] == l[i];
    assert forall i :: 0 <= i < |s.low| ==> s.low[i] == l[|s.bottom| + i];
    assert forall i :: 0 <= i < |s.high| ==> s.high[i] == l[|s.bottom| + |s.low| + i];
  }

  lemma TotalAll(charge: seq<nat>, s: Segments)
    requires InCharge(charge, s)
    ensures InRange(|charge|, s.All())
    ensures Total(charge, s.All()) == Total(charge, s.bottom) + Total(charge, s.low) + Total(charge, s.high)
  {
    TotalConcat(charge, s.bottom, s.low);
    TotalConcat(charge, s.bottom + s.low, s.high);
  }

  // The pointers at the ends of the pools after placing e.
  lemma PlacedEnds(s: Segments, e: nat, pool: Pool)
    requires Distinct(s.All()) && 0 !in s.All() && e !in s.All()
    ensures var r, ring, p := Placed(s, e, pool), Ring(s.All()), PlaceOf(s, pool);
      && (pool.Bottom? ==> ring[p] == Last([0] + s.bottom)) && (pool.Low? ==> ring[p] == Last([0] + (s.bottom + s.low)))
      && (pool.High? ==> ring[p + 1] == 0)
      && Last([0] + r.bottom) == (if pool.Bottom? then e else Last([0] + s.bottom))
      && Last([0] + (r.bottom + r.low))
         == (if pool.Low? || (pool.Bottom? && Last([0] + s.bottom) == Last([0] + (s.bottom + s.low))) then e
             else Last([0] + (s.bottom + s.low)))
  {
    var m, l := s.bottom + s.low, s.All();
    assert forall i :: 0 <= i < |m| ==> m[i] == l[i];
    if s.low != [] {
      assert Last([0] + m) == m[|m| - 1] == l[|m| - 1];
      assert s.bottom != [] ==> Last([0] + s.bottom) == l[|s.bottom| - 1];
      if pool.Bottom? { assert Last([0] + ((s.bottom + [e]) + s.low)) == s.low[|s.low| - 1]; }
    } else {
      assert m == s.bottom;
    }
    if pool.Low? { assert s.bottom + (s.low + [e]) == m + [e]; }
  }

  lemma EmptyOk(nexts: seq<nat>, prevs: seq<nat>, pool: seq<Pool>, charge: seq<nat>)
    requires |nexts| == |prevs| == |pool| == |charge| > 0 && nexts[0] == 0 && prevs[0] == 0
    ensures var s := Segments([], [], []);
      && s.All() == [] && ListOk(nexts, prevs, s) && PoolsOk(pool, charge, s)
      && Last([0] + s.bottom) == 0 && Last([0] + (s.bottom + s.low)) == 0 && Total(charge, []) == 0
  {
    hide Distinct;
    var s, r := Segments([], [], []), [0, 0];
    assert s.All() == [] && Ring(s.All()) == r;
    assert Links(nexts, prevs, r);
    NoneDistinct();
  }

  lemma NoneDistinct()
    ensures Distinct([])
  {
  }

  // The list after LRU_Insert: e at the newest end of its pool, and the pools cut
  // back to their capacities unless e went to the bottom.
  function Settled(charge: seq<nat>, highCap: nat, lowCap: nat, s: Segments, e: nat, where: Pool): Segments {
    var placed := Placed(s, e, where);
    if where.Bottom? || !InCharge(charge, placed) then placed else Maintain(charge, highCap, lowCap, placed)
  }

  // The pool that LRU_Insert chooses.
  function PoolFor(highOn: bool, lowOn: bool, isHigh: bool, isLow: bool, hit: bool): Pool {
    if highOn && (isHigh || hit) then High else if lowOn && (isHigh || isLow || hit) then Low else Bottom
  }

  // The segments without e.
  function Removed(s: Segments, e: nat): Segments {
    Segments(Minus(s.bottom, e), Minus(s.low, e), Minus(s.high, e))
  }

  lemma RemovedNone(s: Segments, e: nat)
    requires e !in s.All()
    ensures Removed(s, e) == s
  {
    NotIn(s, e);
    MinusNone(s.bottom, e);
    MinusNone(s.low, e);
    MinusNone(s.high, e);
  }

  // -- evicting from the old end ------------------------------------------------------------------

  function Drop(p: seq<nat>, n: int): seq<nat> {
    if n <= 0 then p else if n >= |p| then [] else p[n..]
  }

  // The pools without the n oldest entries of the list.
  function DropOldest(s: Segments, n: nat): Segments {
    Segments(Drop(s.bottom, n), Drop(s.low, n - |s.bottom|), Drop(s.high, n - |s.bottom| - |s.low|))
  }

  lemma DropOldestNone(s: Segments)
    ensures DropOldest(s, 0) == s
  {
  }

  lemma DropMore(p: seq<nat>, n: int)
    ensures n <= 0 ==> Drop(p, n) == p
    ensures 0 <= n < |p| ==> Drop(p, n) != [] && Drop(Drop(p, n), 1) == Drop(p, n + 1)
    ensures n >= |p| ==> Drop(p, n) == [] == Drop(p, n + 1)
  {
  }

  lemma DropOldestMore(s: Segments, n: nat)
    requires n < |s.bottom| + |s.low| + |s.high|
    ensures DropOldest(DropOldest(s, n), 1) == DropOldest(s, n + 1)
  {
    hide Drop;
    var a, b := n - |s.bottom|, n - |s.bottom| - |s.low|;
    var t := DropOldest(s, n);
    DropMore(s.bottom, n);
    DropMore(s.low, a);
    DropMore(s.low, a + 1);
    DropMore(s.high, b);
    DropMore(s.high, b + 1);
    DropMore([], 0);
    DropMore(t.low, 1 - |t.bottom|);
    DropMore(t.high, 1 - |t.bottom| - |t.low|);
  }

  // Removing the oldest entry.
  lemma RemovedOldest(s: Segments)
    requires Distinct(s.All()) && s.All() != []
    ensures Removed(s, s.All()[0]) == DropOldest(s, 1)
  {
    hide Distinct;
    var e, rest := s.All()[0], DropOldest(s, 1);
    OldestOnce(s);
    if s.bottom != [] {
      MinusNone(s.low, e);
      MinusNone(s.high, e);
    } else if s.low != [] {
      MinusNone(s.high, e);
    }
  }

  // The oldest entry is nowhere else.
  lemma OldestOnce(s: Segments)
    requires Distinct(s.All()) && s.All() != []
    ensures var e := s.All()[0];
      if s.bottom != [] then e == s.bottom[0] && e !in s.low && e !in s.high
      else if s.low != [] then e == s.low[0] && e !in s.high
      else s.high != [] && e == s.high[0]
  {
    var l, a := s.All(), |s.bottom|;
    forall i | 0 <= i < |s.low| ensures l[a + i] == s.low[i] {}
    forall i | 0 <= i < |s.high| ensures l[a + |s.low| + i] == s.high[i] {}
  }

  // Both pools are within their capacities.
  predicate Bounded(charge: seq<nat>, highCap: nat, lowCap: nat, s: Segments) {
    InCharge(charge, s) && Total(charge, s.high) <= highCap && Total(charge, s.low) <= lowCap
  }

  // An insertion into the high or the low pool restores the bounds, whatever they were.
  lemma SettledBounded(charge: seq<nat>, highCap: nat, lowCap: nat, s: Segments, e: nat, where: Pool)
    requires InCharge(charge, s) && e < |charge| && !where.Bottom?
    ensures Bounded(charge, highCap, lowCap, Settled(charge, highCap, lowCap, s, e, where))
  {
    hide Total, SpillHigh, SpillLow;
    MaintainOk(charge, highCap, lowCap, Placed(s, e, where));
  }

  // e is the newest entry of a pool.
  predicate Newest(p: seq<nat>, e: nat) {
    p != [] && p[|p| - 1] == e
  }

  lemma {:induction false} TotalHas(charge: seq<nat>, p: seq<nat>, e: nat)
    requires InRange(|charge|, p) && Newest(p, e)
    ensures Total(charge, p) >= charge[e] && (|p| == 1 ==> Total(charge, p) == charge[e])
  {
    if |p| > 1 { TotalHas(charge, p[1..], e); }
  }

  // Spilling from the old end reaches the newest entry exactly if that is too large by
  // itself.
  lemma {:induction false} SpillHighNewest(charge: seq<nat>, cap: nat, s: Segments, e: nat)
    requires InCharge(charge, s) && Newest(s.high, e)
    ensures var r := SpillHigh(charge, cap, s);
      if charge[e] <= cap then Newest(r.high, e) else r.high == [] && Newest(r.low, e)
    decreases |s.high|
  {
    TotalHas(charge, s.high, e);
    if Total(charge, s.high) > cap {
      var next := Segments(s.bottom, s.low + [s.high[0]], s.high[1..]);
      if |s.high| > 1 { SpillHighNewest(charge, cap, next, e); }
    }
  }

  lemma {:induction false} SpillLowNewest(charge: seq<nat>, cap: nat, s: Segments, e: nat)
    requires InCharge(charge, s) && Newest(s.low, e)
    ensures var r := SpillLow(charge, cap, s);
      r.high == s.high && if charge[e] <= cap then Newest(r.low, e) else r.low == [] && Newest(r.bottom, e)
    decreases |s.low|
  {
    TotalHas(charge, s.low, e);
    if Total(charge, s.low) > cap {
      var next := Segments(s.bottom + [s.low[0]], s.low[1..], s.high);
      if |s.low| > 1 { SpillLowNewest(charge, cap, next, e); }
    }
  }

  lemma {:induction false} SpillLowHigh(charge: seq<nat>, cap: nat, s: Segments)
    requires InCharge(charge, s)
    ensures SpillLow(charge, cap, s).high == s.high
    decreases |s.low|
  {
    if Total(charge, s.low) > cap && s.low != [] {
      SpillLowHigh(charge, cap, Segments(s.bottom + [s.low[0]], s.low[1..], s.high));
    }
  }

  // The best pool that an entry is entitled to and fits into has it as its newest entry:
  // the high pool, the low pool if the entry is entitled to it or falls out of the high
  // one, else the bottom.
  predicate Ranked(charge: seq<nat>, highCap: nat, lowCap: nat, s: Segments, e: nat, high: bool, low: bool)
    requires e < |charge|
  {
    if high && charge[e] <= highCap then Newest(s.high, e)
    else if (high || low) && charge[e] <= lowCap then Newest(s.low, e)
    else Newest(s.bottom, e)
  }

  lemma SettledRanked(charge: seq<nat>, highCap: nat, lowCap: nat, s: Segments, e: nat, where: Pool)
    requires InCharge(charge, s) && e < |charge|
    requires where.Low? ==> Total(charge, s.high) <= highCap
    ensures Ranked(charge, highCap, lowCap, Settled(charge, highCap, lowCap, s, e, where), e, where.High?, where.Low?)
  {
    hide Total, SpillLow, SpillHigh;
    var placed := Placed(s, e, where);
    if !where.Bottom? {
      var spilled := SpillHigh(charge, highCap, placed);
      if where.High? {
        SpillHighNewest(charge, highCap, placed, e);
        SpillLowHigh(charge, lowCap, spilled);
      } else {
        SpillHighStops(charge, highCap, placed);
      }
      if Newest(spilled.low, e) { SpillLowNewest(charge, lowCap, spilled, e); }
    }
  }

  // Everything about the rewiring around e.
  lemma RemoveAll(nexts: seq<nat>, prevs: seq<nat>, pool: seq<Pool>, charge: seq<nat>, s: Segments, e: nat)
    requires ListOk(nexts, prevs, s) && PoolsOk(pool, charge, s) && e in s.All() && |nexts| == |pool| == |charge|
    ensures e < |pool| == |nexts| == |prevs| && nexts[e] < |nexts| && prevs[e] < |nexts| && InRange(|charge|, s.All())
    ensures ListOk(nexts[prevs[e] := nexts[e]], prevs[nexts[e] := prevs[e]], Removed(s, e))
    ensures PoolsOk(pool, charge, Removed(s, e))
    ensures InCharge(charge, Removed(s, e)) && Removed(s, e).All() == Minus(s.All(), e)
    ensures Last([0] + Removed(s, e).bottom) == if Last([0] + s.bottom) == e then prevs[e] else Last([0] + s.bottom)
    ensures var q, r := s.bottom + s.low, Removed(s, e).bottom + Removed(s, e).low;
      Last([0] + r) == if Last([0] + q) == e then prevs[e] else Last([0] + q)
  {
    hide Total, Minus, Distinct, Links, PoolsOk, Ring, InRange, Last;
    var i := Index(s.All(), e);
    RemoveLinks(nexts, prevs, s, i);
    RemovePools(pool, charge, s, e);
    LastMinus(s.All(), s.bottom, i);
    LastMinus(s.All(), s.bottom + s.low, i);
  }

  lemma RemoveTotals(nexts: seq<nat>, prevs: seq<nat>, pool: seq<Pool>, charge: seq<nat>, s: Segments, e: nat)
    requires ListOk(nexts, prevs, s) && PoolsOk(pool, charge, s) && e in s.All()
    ensures var r := Removed(s, e);
      && e < |pool| == |charge| && InRange(|charge|, s.All()) && InRange(|charge|, r.All()) && InCharge(charge, s)
      && InCharge(charge, r)
      && Total(charge, r.high) == Total(charge, s.high) - (if pool[e].High? then charge[e] else 0)
      && Total(charge, r.low) == Total(charge, s.low) - (if pool[e].Low? then charge[e] else 0)
      && Total(charge, r.All()) == Total(charge, s.All()) - charge[e]
  {
    hide Total, Minus, Distinct, Links, Ring;
    RemovePools(pool, charge, s, e);
  }

  class List {
    const nexts: array<nat>
    const prevs: array<nat>
    const pool: array<Pool>
    const charge: array<nat>
    var lowPri: nat        // lru_low_pri_: the newest entry of the low pool, or what precedes it
    var bottomPri: nat     // lru_bottom_pri_
    var highUsage: nat
    var lowUsage: nat
    var usage: nat         // lru_usage_
    var highOn: bool       // high_pri_pool_ratio_ > 0
    var lowOn: bool
    var highCap: nat       // high_pri_pool_capacity_
    var lowCap: nat
    ghost var seg: Segments

    ghost predicate Valid()
      reads this, nexts, prevs, pool, charge
    {
      && nexts != prevs && nexts != charge && prevs != charge
      && nexts.Length == prevs.Length == pool.Length == charge.Length > 0
      && ListOk(nexts[..], prevs[..], seg) && PoolsOk(pool[..], charge[..], seg) && InCharge(charge[..], seg)
      && bottomPri == Last([0] + seg.bottom) && lowPri == Last([0] + (seg.bottom + seg.low))
      && highUsage == Total(charge[..], seg.high) && lowUsage == Total(charge[..], seg.low)
      && usage == Total(charge[..], seg.All())
    }

    twostate predicate SameSettings()
      reads this
    {
      highCap == old(highCap) && lowCap == old(lowCap) && highOn == old(highOn) && lowOn == old(lowOn)
    }

    constructor (n: nat, charge: array<nat>)
      requires charge.Length == n > 0
      ensures Valid() && seg == Segments([], [], []) && this.charge == charge
      ensures fresh(nexts) && fresh(prevs) && fresh(pool) && highCap == 0 && lowCap == 0
    {
      nexts, prevs, pool := new nat[n](_ => 0), new nat[n](_ => 0), new Pool[n](_ => Bottom);
      this.charge := charge;
      lowPri, bottomPri, highUsage, lowUsage, usage, highCap, lowCap := 0, 0, 0, 0, 0, 0, 0;
      highOn, lowOn := false, false;
      seg := Segments([], [], []);
      new;
      hide ListOk, PoolsOk, Total, Last;
      EmptyOk(nexts[..], prevs[..], pool[..], charge[..]);
    }

    lemma InChargeNow()
      requires Valid()
      ensures InCharge(charge[..], seg)
    {
    }

    lemma Facts()
      requires Valid()
      ensures Distinct(seg.All()) && 0 !in seg.All() && InRange(charge.Length, seg.All()) && charge.Length > 0
      ensures usage == Total(charge[..], seg.All())
    {
      TotalAll(charge[..], seg);
    }

    // LRU_Remove
    method Remove(e: nat)
      requires Valid() && e in seg.All()
      modifies this, nexts, prevs
      ensures Valid() && SameSettings()
      ensures seg == Removed(old(seg), e)
      ensures seg.All() == Minus(old(seg).All(), e) && usage + charge[e] == old(usage)
    {
      hide Total, ListOk, PoolsOk, InRange, Last, InCharge, Segments.All, Removed;
      ghost var s := seg;
      RemoveAll(nexts[..], prevs[..], pool[..], charge[..], s, e);
      RemoveTotals(nexts[..], prevs[..], pool[..], charge[..], s, e);
      var next, prev := nexts[e], prevs[e];
      if lowPri == e { lowPri := prev; }
      if bottomPri == e { bottomPri := prev; }
      prevs[next] := prev;
      nexts[prev] := next;
      usage := usage - charge[e];
      if pool[e].High? { highUsage := highUsage - charge[e]; }
      else if pool[e].Low? { lowUsage := lowUsage - charge[e]; }
      seg := Removed(s, e);
    }

    // SetCapacity and the ratio setters store new pool capacities.
    method SetPools(on: bool, lowOn': bool, high: nat, low: nat)
      requires Valid()
      modifies this
      ensures Valid() && seg == old(seg) && highCap == high && lowCap == low && highOn == on && lowOn == lowOn'
    {
      hide ListOk, PoolsOk, Total, Last, InCharge;
      highOn, lowOn, highCap, lowCap := on, lowOn', high, low;
    }

    // The pointer rewiring that all three ways of inserting share: put e behind prev.
    method Place(e: nat, prev: nat, where: Pool)
      requires Valid() && 0 < e < charge.Length && e !in seg.All()
      requires prev == Ring(seg.All())[PlaceOf(seg, where)]
      modifies this, nexts, prevs, pool
      ensures Valid() && seg == Placed(old(seg), e, where) && SameSettings()
    {
      hide Total, Distinct, Links, PoolsOk, Ring, InRange, Last, PlaceOf;
      ghost var s := seg;
      InsertLinks(nexts[..], prevs[..], s, e, where);
      InsertPools(pool[..], charge[..], s, e, where);
      PlacedEnds(s, e, where);
      var next := nexts[prev];
      nexts[e], prevs[e] := next, prev;
      nexts[prev] := e;
      prevs[next] := e;
      pool[e] := where;
      usage := usage + charge[e];
      match where {
        case High => highUsage := highUsage + charge[e];
        case Low => lowUsage, lowPri := lowUsage + charge[e], e;
        case Bottom =>
          if bottomPri == lowPri { lowPri := e; }
          bottomPri := e;
      }
      seg := Placed(s, e, where);
    }

    // The high pool of s is within its capacity.
    ghost predicate HighWithin(s: Segments)
      reads this, charge
    {
      InCharge(charge[..], s) && Total(charge[..], s.high) <= highCap
    }

    // LRU_Insert
    method Insert(e: nat, isHigh: bool, isLow: bool, hit: bool)
      requires Valid() && 0 < e < charge.Length && e !in seg.All()
      modifies this, nexts, prevs, pool
      ensures Valid() && SameSettings()
      ensures var where := PoolFor(highOn, lowOn, isHigh, isLow, hit);
        seg == Settled(charge[..], highCap, lowCap, old(seg), e, where)
      ensures usage == old(usage) + charge[e]
      // a high priority or a hit gets e into the high pool, a priority or a hit into the low
      // pool, each if there is such a pool; unless the high pool was overfull before
      ensures var high := highOn && (isHigh || hit);
        var low := !high && lowOn && (isHigh || isLow || hit);
        !low || HighWithin(old(seg)) ==> Ranked(charge[..], highCap, lowCap, seg, e, high, low)
    {
      hide Total, Distinct, Links, PoolsOk, InRange, Placed, Maintain, InCharge, Ranked;
      EndsNow();
      InChargeNow();
      ghost var where := PoolFor(highOn, lowOn, isHigh, isLow, hit);
      if !where.Low? || HighWithin(seg) { SettledRanked(charge[..], highCap, lowCap, seg, e, where); }
      InsertPools(pool[..], charge[..], seg, e, PoolFor(highOn, lowOn, isHigh, isLow, hit));
      if highOn && (isHigh || hit) {
        Place(e, prevs[0], High);
        MaintainPoolSize();
      } else if lowOn && (isHigh || isLow || hit) {
        Place(e, lowPri, Low);
        MaintainPoolSize();
      } else {
        Place(e, bottomPri, Bottom);
      }
    }

    // Where the pool pointers stand on the ring.
    lemma EndsNow()
      requires Valid()
      ensures prevs[0] == Ring(seg.All())[PlaceOf(seg, High)]
      ensures lowPri == Ring(seg.All())[PlaceOf(seg, Low)] && bottomPri == Ring(seg.All())[PlaceOf(seg, Bottom)]
    {
      var l, m := seg.All(), seg.bottom + seg.low;
      LinkHere(nexts[..], prevs[..], Ring(l), |l| + 1);
      assert Ring(l)[|m|] == Last([0] + m) && Ring(l)[|seg.bottom|] == Last([0] + seg.bottom);
    }

    // The entry to evict first: lru_.next, or the dummy if the list is empty.
    method Oldest() returns (e: nat)
      requires Valid()
      ensures if seg.All() == [] then e == 0 else e == seg.All()[0] && e != 0
    {
      LinkHere(nexts[..], prevs[..], Ring(seg.All()), 1);
      e := nexts[0];
    }

    // MaintainPoolSize
    method MaintainPoolSize()
      requires Valid()
      modifies this, pool
      ensures Valid() && seg == Maintain(charge[..], highCap, lowCap, old(seg))
      ensures SameSettings() && usage == old(usage)
    {
      hide Total, Distinct, Links, PoolsOk, Ring, InRange, Last, SpillHigh, SpillLow;
      while highUsage > highCap
        invariant Valid() && SameSettings() && usage == old(usage)
        invariant SpillHigh(charge[..], highCap, seg) == SpillHigh(charge[..], highCap, old(seg))
        decreases |seg.high|
      {
        SpillHighStep(nexts[..], prevs[..], pool[..], charge[..], highCap, seg);
        lowPri := nexts[lowPri];
        pool[lowPri] := Low;
        highUsage := highUsage - charge[lowPri];
        lowUsage := lowUsage + charge[lowPri];
        seg := Segments(seg.bottom, seg.low + [seg.high[0]], seg.high[1..]);
      }
      SpillHighStops(charge[..], highCap, seg);
      while lowUsage > lowCap
        invariant Valid() && SameSettings() && usage == old(usage)
        invariant SpillLow(charge[..], lowCap, seg) == Maintain(charge[..], highCap, lowCap, old(seg))
        decreases |seg.low|
      {
        SpillLowStep(nexts[..], prevs[..], pool[..], charge[..], lowCap, seg);
        bottomPri := nexts[bottomPri];
        pool[bottomPri] := Bottom;
        lowUsage := lowUsage - charge[bottomPri];
        seg := Segments(seg.bottom + [seg.low[0]], seg.low[1..], seg.high);
      }
      SpillLowStops(charge[..], lowCap, seg);
    }
  }

  lemma SpillHighStops(charge: seq<nat>, cap: nat, s: Segments)
    requires InCharge(charge, s) && Total(charge, s.high) <= cap
    ensures SpillHigh(charge, cap, s) == s
  {
  }

  lemma SpillLowStops(charge: seq<nat>, cap: nat, s: Segments)
    requires InCharge(charge, s) && Total(charge, s.low) <= cap
    ensures SpillLow(charge, cap, s) == s
  {
  }

  // One overflow from the high pool: lru_low_pri_ moves to the next entry, which is
  // not the dummy and is in the high pool.
  lemma SpillHighStep(nexts: seq<nat>, prevs: seq<nat>, pool: seq<Pool>, charge: seq<nat>, cap: nat, s: Segments)
    requires ListOk(nexts, prevs, s) && PoolsOk(pool, charge, s) && |nexts| == |charge| && Total(charge, s.high) > cap
    ensures s.high != [] && s.high[0] < |charge|
    ensures var e, r := s.high[0], Segments(s.bottom, s.low + [s.high[0]], s.high[1..]);
      var t := Last([0] + (s.bottom + s.low));
      && t < |nexts| && nexts[t] == e && e != 0 && pool[e] == High
      && ListOk(nexts, prevs, r) && PoolsOk(pool[e := Low], charge, r) && r.All() == s.All()
      && Last([0] + (r.bottom + r.low)) == e && InCharge(charge, r)
      && Total(charge, r.high) + charge[e] == Total(charge, s.high)
      && Total(charge, r.low) == Total(charge, s.low) + charge[e]
      && SpillHigh(charge, cap, r) == SpillHigh(charge, cap, s)
  {
    hide Distinct, SpillLow;
    var e := s.high[0];
    var r := Segments(s.bottom, s.low + [e], s.high[1..]);
    var m := s.bottom + s.low;
    MoveFirst(m, s.high);
    assert s.bottom + (s.low + [e]) == m + [e];
    assert r.All() == s.All();
    TotalConcat(charge, s.low, [e]);
    TotalOne(charge, e);
    EndOf(nexts, prevs, s.All(), m, s.high);
    OthersDiffer(s);
  }

  lemma SpillLowStep(nexts: seq<nat>, prevs: seq<nat>, pool: seq<Pool>, charge: seq<nat>, cap: nat, s: Segments)
    requires ListOk(nexts, prevs, s) && PoolsOk(pool, charge, s) && |nexts| == |charge| && Total(charge, s.low) > cap
    ensures s.low != [] && s.low[0] < |charge|
    ensures var e, r, t := s.low[0], Segments(s.bottom + [s.low[0]], s.low[1..], s.high), Last([0] + s.bottom);
      && t < |nexts| && nexts[t] == e && e != 0 && pool[e] == Low
      && ListOk(nexts, prevs, r) && PoolsOk(pool[e := Bottom], charge, r) && r.All() == s.All()
      && Last([0] + r.bottom) == e && Last([0] + (r.bottom + r.low)) == Last([0] + (s.bottom + s.low))
      && InCharge(charge, r)
      && Total(charge, r.low) + charge[e] == Total(charge, s.low)
      && SpillLow(charge, cap, r) == SpillLow(charge, cap, s)
  {
    hide Distinct, SpillHigh;
    var e := s.low[0];
    var r := Segments(s.bottom + [e], s.low[1..], s.high);
    MoveFirst(s.bottom, s.low);
    assert r.All() == s.All();
    assert s.All() == s.bottom + (s.low + s.high);
    EndOf(nexts, prevs, s.All(), s.bottom, s.low + s.high);
    OthersDiffer(s);
  }

  // What follows a leading part of the list.
  lemma EndOf(nexts: seq<nat>, prevs: seq<nat>, l: seq<nat>, m: seq<nat>, rest: seq<nat>)
    requires Links(nexts, prevs, Ring(l)) && l == m + rest && rest != [] && 0 !in l
    ensures Last([0] + m) < |nexts| && nexts[Last([0] + m)] == rest[0] && rest[0] != 0
  {
    LinkHere(nexts, prevs, Ring(l), |m| + 1);
    assert Ring(l)[|m|] == Last([0] + m) && Ring(l)[|m| + 1] == rest[0] == l[|m|];
  }

  // The first entry of a pool is nowhere else.
  lemma OthersDiffer(s: Segments)
    requires Distinct(s.All())
    ensures s.high != [] ==>
      && (forall i :: 0 < i < |s.high| ==> s.high[i] != s.high[0])
      && (forall i :: 0 <= i < |s.low| ==> s.low[i] != s.high[0])
      && (forall i :: 0 <= i < |s.bottom| ==> s.bottom[i] != s.high[0])
    ensures s.low != [] ==>
      && (forall i :: 0 < i < |s.low| ==> s.low[i] != s.low[0])
      && (forall i :: 0 <= i < |s.high| ==> s.high[i] != s.low[0])
      && (forall i :: 0 <= i < |s.bottom| ==> s.bottom[i] != s.low[0])
  {
    var l := s.All();
    assert forall i :: 0 <= i < |s.bottom| ==> s.bottom[i] == l[i];
    assert forall i :: 0 <= i < |s.low| ==> s.low[i] == l[|s.bottom| + i];
    assert forall i :: 0 <= i < |s.high| ==> s.high[i] == l[|s.bottom| + |s.low| + i];
  }
}