// DoInsert of AutoHyperClockTable looks for a free slot in four linear probes and
// then in strides of roughly the golden ratio, shifting the start by one whenever a
// cycle closes. Whatever the greatest common divisor of stride and length, it tries
// every slot before it gives up.
module AutoProbe {
  import opened Probing

  // Multiples of the stride, as residues.
  function Res(k: int, incr: nat, n: nat): (h: nat)
    requires n > 0
    ensures h < n
  {
    (k * incr) % n
  }

  // c steps of the stride are the first to close a cycle.
  predicate Cycle(incr: nat, n: nat, c: nat)
    requires n > 0
  {
    && c > 0 && Res(c, incr, n) == 0
    && forall k :: 0 < k < c ==> Res(k, incr, n) != 0
  }

  // There is such a number, and it is at most n.
  lemma {:induction false} FindCycle(incr: nat, n: nat, k: nat) returns (c: nat)
    requires n > 0 && 0 < k <= n && forall j :: 0 < j < k ==> Res(j, incr, n) != 0
    ensures Cycle(incr, n, c) && c <= n
    decreases n - k
  {
    if Res(k, incr, n) == 0 {
      c := k;
    } else {
      if k == n { MultipleModZero(n, incr); assert false; }
      c := FindCycle(incr, n, k + 1);
    }
  }

  // k * incr == n * q + r determines the residue.
  lemma ResIs(k: int, incr: nat, n: nat, q: int, r: nat)
    requires n > 0 && k * incr == n * q + r && r < n
    ensures Res(k, incr, n) == r
  {
    DivModUnique(k * incr, n, q, r);
  }

  lemma ResParts(k: int, incr: nat, n: nat)
    requires n > 0
    ensures k * incr == n * ((k * incr) / n) + Res(k, incr, n)
  {
  }

  // The difference of two residues is a residue.
  lemma Difference(incr: nat, n: nat, c: nat, k1: nat, k2: nat) returns (k: nat)
    requires n > 0 && Cycle(incr, n, c) && k1 < c && k2 < c && Res(k1, incr, n) < Res(k2, incr, n)
    ensures 0 < k < c && Res(k, incr, n) == Res(k2, incr, n) - Res(k1, incr, n)
  {
    var h1, h2 := Res(k1, incr, n), Res(k2, incr, n);
    var q1, q2, qc := (k1 * incr) / n, (k2 * incr) / n, (c * incr) / n;
    ResParts(k1, incr, n);
    ResParts(k2, incr, n);
    ResParts(c, incr, n);
    if k2 > k1 {
      k := k2 - k1;
      Minus(k2, k1, incr);
      Factor2(n, q2, q1);
      ResIs(k, incr, n, q2 - q1, h2 - h1);
    } else {
      k := k2 - k1 + c;
      Minus(k2, k1, incr);
      Plus(k2 - k1, c, incr);
      Factor3(n, q2, q1, qc);
      ResIs(k, incr, n, q2 - q1 + qc, h2 - h1);
    }
  }

  lemma Minus(a: int, b: int, x: int)
    ensures (a - b) * x == a * x - b * x
  {
  }

  lemma Plus(a: int, b: int, x: int)
    ensures (a + b) * x == a * x + b * x
  {
  }

  lemma Factor2(n: int, a: int, b: int)
    ensures n * (a - b) == n * a - n * b
  {
  }

  lemma Factor3(n: int, a: int, b: int, c: int)
    ensures n * (a - b + c) == n * a - n * b + n * c
  {
  }

  // So is what is missing to a full round.
  lemma Complement(incr: nat, n: nat, c: nat, k: nat) returns (k': nat)
    requires n > 0 && Cycle(incr, n, c) && 0 < k < c
    ensures 0 < k' < c && Res(k', incr, n) == n - Res(k, incr, n)
  {
    var q, qc := (k * incr) / n, (c * incr) / n;
    ResParts(k, incr, n);
    ResParts(c, incr, n);
    k' := c - k;
    Minus(c, k, incr);
    Factor3(n, qc, q, -1);
    ResIs(k', incr, n, qc - q - 1, n - Res(k, incr, n));
  }

  // The smallest positive residue, or n if there is none.
  predicate Smallest(incr: nat, n: nat, m: nat, d: nat, kd: nat)
    requires n > 0
  {
    && 0 < d <= n && (if d == n then kd == 0 else 0 < kd < m && Res(kd, incr, n) == d)
    && forall k :: 0 < k < m ==> Res(k, incr, n) >= d
  }

  lemma {:induction false} FindSmallest(incr: nat, n: nat, c: nat, m: nat) returns (d: nat, kd: nat)
    requires n > 0 && Cycle(incr, n, c) && 0 < m <= c
    ensures Smallest(incr, n, m, d, kd)
    decreases m
  {
    if m == 1 {
      d, kd := n, 0;
    } else {
      d, kd := FindSmallest(incr, n, c, m - 1);
      if Res(m - 1, incr, n) < d { d, kd := Res(m - 1, incr, n), m - 1; }
    }
  }

  // Residues are at least d apart, so that a cycle has at most n / d of them.
  ghost function Steps(incr: nat, n: nat, d: nat, m: nat): (s: set<nat>)
    requires n > 0 && d > 0
  {
    set k | 0 <= k < m :: Res(k, incr, n) / d
  }

  lemma Apart(incr: nat, n: nat, c: nat, d: nat, kd: nat, k1: nat, k2: nat)
    requires n > 0 && Cycle(incr, n, c) && Smallest(incr, n, c, d, kd) && k1 < k2 < c
    ensures Res(k1, incr, n) / d != Res(k2, incr, n) / d
  {
    var h1, h2 := Res(k1, incr, n), Res(k2, incr, n);
    if h1 == h2 {
      var q1, q2 := (k1 * incr) / n, (k2 * incr) / n;
      ResParts(k1, incr, n);
      ResParts(k2, incr, n);
      Minus(k2, k1, incr);
      Factor2(n, q2, q1);
      ResIs(k2 - k1, incr, n, q2 - q1, 0);
    } else if h1 < h2 {
      var k := Difference(incr, n, c, k1, k2);
      FarApart(h1, h2, d);
    } else {
      var k := Difference(incr, n, c, k2, k1);
      FarApart(h2, h1, d);
    }
  }

  lemma FarApart(a: nat, b: nat, d: nat)
    requires d > 0 && a + d <= b
    ensures a / d < b / d
  {
    if b / d <= a / d { MulMono(b / d, a / d, d); }
  }

  lemma MulMono(a: nat, b: nat, d: nat)
    requires a <= b
    ensures d * a <= d * b
  {
    assert d * b == d * a + d * (b - a);
  }

  lemma {:induction false} StepsSize(incr: nat, n: nat, c: nat, d: nat, kd: nat, m: nat)
    requires n > 0 && Cycle(incr, n, c) && Smallest(incr, n, c, d, kd) && m <= c
    ensures |Steps(incr, n, d, m)| == m
    decreases m
  {
    if m == 0 {
      assert Steps(incr, n, d, 0) == {};
    } else {
      StepsSize(incr, n, c, d, kd, m - 1);
      var last := Res(m - 1, incr, n) / d;
      forall k | 0 <= k < m - 1 ensures Res(k, incr, n) / d != last { Apart(incr, n, c, d, kd, k, m - 1); }
      assert last !in Steps(incr, n, d, m - 1);
      assert Steps(incr, n, d, m) == Steps(incr, n, d, m - 1) + {last};
    }
  }

  lemma StepBelow(incr: nat, n: nat, c: nat, d: nat, kd: nat, k: nat)
    requires n > 0 && Cycle(incr, n, c) && Smallest(incr, n, c, d, kd) && k < c
    ensures Res(k, incr, n) / d < n / d
  {
    hide Res;
    if k > 0 { var k' := Complement(incr, n, c, k); } else { ResIs(0, incr, n, 0, 0); }
    FarApart(Res(k, incr, n), n, d);
  }

  // The cycle length times the smallest residue is at most the table length.
  lemma CycleTimesStep(incr: nat, n: nat, c: nat, d: nat, kd: nat)
    requires n > 0 && Cycle(incr, n, c) && Smallest(incr, n, c, d, kd)
    ensures c * d <= n
  {
    hide Res, Cycle, Smallest;
    SmallestPositive(incr, n, c, d, kd);
    StepsSize(incr, n, c, d, kd, c);
    var s := Steps(incr, n, d, c);
    forall x | x in s ensures x < n / d {
      var k :| 0 <= k < c && Res(k, incr, n) / d == x;
      StepBelow(incr, n, c, d, kd, k);
    }
    BoundedSetSize(s, n / d);
    MulMono(c, n / d, d);
    DivMul(n, d);
  }

  lemma SmallestPositive(incr: nat, n: nat, c: nat, d: nat, kd: nat)
    requires n > 0 && Smallest(incr, n, c, d, kd)
    ensures d > 0
  {
  }

  lemma DivMul(n: nat, d: nat)
    requires d > 0
    ensures d * (n / d) <= n
  {
  }

  lemma FewerSteps(m: nat, c: nat, d: nat, n: nat)
    requires c > 0 && m * c >= n >= c * d
    ensures m >= d
  {
    if m < d { MulLess(m, d, c); }
  }

  lemma MulLess(m: nat, d: nat, c: nat)
    requires m < d && c > 0
    ensures m * c < c * d
  {
    assert c * d == c * m + c * (d - m);
    MulAtLeast(c, d - m);
  }

  lemma DivParts(t: nat, d: nat)
    requires d > 0
    ensures t == (t / d) * d + t % d && 0 <= t % d < d && t / d >= 0
  {
  }

  // The smallest residue is a multiple of the stride up to rounds.
  lemma SmallestIs(incr: nat, n: nat, c: nat, d: nat, kd: nat) returns (e: int)
    requires n > 0 && Smallest(incr, n, c, d, kd)
    ensures d == kd * incr + n * e
  {
    if d == n {
      e := 1;
    } else {
      ResParts(kd, incr, n);
      e := -((kd * incr) / n);
      assert n * e == -(n * ((kd * incr) / n));
    }
  }

  // q steps of size d, as k strides with k below the cycle length.
  lemma StepsAsStrides(incr: nat, n: nat, c: nat, d: nat, kd: nat, q: nat) returns (k: nat, x: int)
    requires n > 0 && Cycle(incr, n, c) && Smallest(incr, n, c, d, kd)
    ensures k < c && q * d == k * incr + n * x
  {
    var e := SmallestIs(incr, n, c, d, kd);
    var total := q * kd;
    var a := total / c;
    k := total % c;
    assert total == c * a + k;
    ResParts(c, incr, n);
    var qc := (c * incr) / n;
    assert c * incr == n * qc;
    x := qc * a + q * e;
    Expand(q, d, kd, incr, n, e, c, a, k, qc);
  }

  lemma Expand(q: int, d: int, kd: int, incr: int, n: int, e: int, c: int, a: int, k: int, qc: int)
    requires d == kd * incr + n * e && q * kd == c * a + k && c * incr == n * qc
    ensures q * d == k * incr + n * (qc * a + q * e)
  {
    assert q * d == (q * kd) * incr + n * (q * e) by {
      Distribute(q, kd * incr, n * e);
      Regroup(q, kd, incr);
      Regroup(q, n, e);
      Regroup(n, q, e);
    }
    Distribute(incr, c * a, k);
    assert (c * a) * incr == (c * incr) * a by { Regroup(a, c, incr); Regroup(c, a, incr); }
    assert (n * qc) * a == n * (qc * a) by { Regroup(n, qc, a); }
    Distribute(n, qc * a, q * e);
  }

  lemma Distribute(a: int, b: int, c: int)
    ensures a * (b + c) == a * b + a * c && (b + c) * a == b * a + c * a
  {
  }

  lemma Regroup(a: int, b: int, c: int)
    ensures a * (b * c) == (a * b) * c && (a * b) * c == (b * a) * c && a * (b * c) == (b * c) * a
  {
  }

  // Enough cycles, each shifted by one, visit every slot.
  lemma CyclesCover(incr: nat, n: nat, c: nat, m: nat, start: nat, slot: nat) returns (j: nat, k: nat)
    requires n > 0 && Cycle(incr, n, c) && m * c >= n && start < n && slot < n
    ensures j < m && k < c && (start + j + k * incr) % n == slot
  {
    hide Res, Cycle, Smallest;
    CyclePositive(incr, n, c);
    var d, kd := FindSmallest(incr, n, c, c);
    SmallestPositive(incr, n, c, d, kd);
    CycleTimesStep(incr, n, c, d, kd);
    FewerSteps(m, c, d, n);
    var t, y := slot - start, 0;
    if slot < start { t, y := slot - start + n, 1; }
    DivParts(t, d);
    var x: int;
    j := t % d;
    k, x := StepsAsStrides(incr, n, c, d, kd, t / d);
    Strides(start, slot, t, y, (t / d) * d, j, k * incr, n, x);
  }

  lemma Strides(start: nat, slot: nat, t: nat, y: int, whole: int, j: nat, strides: int, n: nat, x: int)
    requires slot < n && t == slot - start + n * y && t == whole + j && whole == strides + n * x
    ensures (start + j + strides) % n == slot
  {
    Factor2(n, y, x);
    DivModUnique(start + j + strides, n, y - x, slot);
  }

  // -- the search ----------------------------------------------------------------------------------

  // The slot tried k strides into cycle j.
  function Tried(start: nat, j: nat, k: nat, incr: nat, n: nat): (slot: nat)
    requires n > 0
    ensures slot < n
  {
    MulNonNegative(k, incr);
    (start + j + k * incr) % n
  }

  predicate CycleBusy(busy: seq<bool>, start: nat, j: nat, upTo: nat, incr: nat) {
    |busy| > 0 && forall k :: 0 <= k < upTo ==> busy[Tried(start, j, k, incr, |busy|)]
  }

  // Advancing by the stride, with the subtraction in place of %.
  lemma NextTried(start: nat, j: nat, k: nat, incr: nat, n: nat)
    requires incr < n
    ensures var idx := Tried(start, j, k, incr, n) + incr;
      Tried(start, j, k + 1, incr, n) == if idx >= n then idx - n else idx
  {
    MulNonNegative(k, incr);
    var x := start + j + k * incr;
    assert (k + 1) * incr == k * incr + incr;
    var q, h := x / n, x % n;
    if h + incr >= n {
      Distribute(n, q, 1);
      DivModUnique(x + incr, n, q + 1, h + incr - n);
    } else {
      DivModUnique(x + incr, n, q, h + incr);
    }
  }

  // A cycle closes exactly after c strides.
  lemma ClosesAt(start: nat, j: nat, k: nat, incr: nat, n: nat, c: nat)
    requires n > 0 && Cycle(incr, n, c) && 0 < k <= c
    ensures Tried(start, j, k, incr, n) == Tried(start, j, 0, incr, n) <==> k == c
  {
    MulNonNegative(k, incr);
    var a, b := start + j + k * incr, start + j;
    ResParts(k, incr, n);
    if k == c {
      var q := (k * incr) / n;
      assert a == b + n * q;
      DivNonNegative(k * incr, n);
      ModAddMultiple(b, n, q);
    } else {
      assert Res(k, incr, n) != 0;
      if a % n == b % n { ModDifference(a, b, n); }
    }
  }

  lemma DivNonNegative(a: nat, n: nat)
    requires n > 0
    ensures a / n >= 0
  {
  }

  lemma NextStart(start: nat, j: nat, incr: nat, n: nat)
    requires n > 0
    ensures var s := Tried(start, j, 0, incr, n) + 1;
      Tried(start, j + 1, 0, incr, n) == if s >= n then s - n else s
  {
    var x := start + j;
    var q, h := x / n, x % n;
    if h + 1 >= n {
      Distribute(n, q, 1);
      DivModUnique(x + 1, n, q + 1, 0);
    } else {
      DivModUnique(x + 1, n, q, h + 1);
    }
  }

  // FastRange64 of the golden ratio, varied by the hash: always a proper stride.
  function Stride(h: nat, n: nat): int {
    ((0x9E3779B185EBCA87 + h / 64) * n) / 0x1_0000_0000_0000_0000
  }

  lemma StrideInRange(h: nat, n: nat)
    requires h < 0x1_0000_0000_0000_0000 && n >= 2
    ensures 0 < Stride(h, n) < n
  {
    var w, r := 0x1_0000_0000_0000_0000, 0x9E3779B185EBCA87 + h / 64;
    assert r < w && 2 * r >= w;
    var x, q := r * n, (r * n) / w;
    MulLess(r, w, n);
    assert n * w == w * n;
    MulMono(2, n, r);
    assert r * 2 >= w;
    DivLess(x, w, n);
    FarApart(0, x, w);
  }

  lemma DivLess(x: int, w: int, n: int)
    requires w > 0 && x < w * n
    ensures x / w < n
  {
    var q := x / w;
    assert x == w * q + x % w;
    assert w * (q - n) == w * q - w * n;
    if q >= n { MulSign(w, q - n); }
  }

  lemma MulSign(a: int, b: int)
    requires a >= 0 && b >= 0
    ensures a * b >= 0
  {
  }

  // What TryInsert finds in a slot: nothing, an entry, or an entry for the same key.
  datatype Seen = Free | Taken | Match

  datatype Outcome = Claimed(slot: nat) | Matched(slot: nat) | GaveUp

  function Busy(slots: seq<Seen>, n: nat): (busy: seq<bool>)
    requires n <= |slots|
    ensures |busy| == n && forall i :: 0 <= i < n ==> busy[i] == slots[i].Taken?
  {
    seq(n, i requires 0 <= i < n => slots[i].Taken?)
  }

  // The search by strides, after i == 4 linear probes that ended at slot `first`.
  method Jump(slots: seq<Seen>, n: nat, first: nat, incr: nat) returns (r: Outcome)
    requires 2 <= n <= |slots| && first < n && 0 < incr < n && slots[first].Taken?
    ensures r.Claimed? ==> r.slot < n && slots[r.slot].Free?
    ensures r.Matched? ==> r.slot < n && slots[r.slot].Match?
    ensures r.GaveUp? ==> forall slot :: 0 <= slot < n ==> slots[slot].Taken?
  {
    hide Tried, Cycle, Res;
    ghost var busy := Busy(slots, n);
    var start, idx, i := first, first, 4;
    ghost var m, k := 0, 0;
    ghost var c := FindCycle(incr, n, 1);
    CyclePositive(incr, n, c);
    TriedStart(first, incr, n);
    while true
      invariant k < c && i == 4 + m * c + k && (m > 0 ==> m * c + 3 < 2 * n)
      invariant start == Tried(first, m, 0, incr, n) && idx == Tried(first, m, k, incr, n)
      invariant forall j :: 0 <= j < m ==> CycleBusy(busy, first, j, c, incr)
      invariant CycleBusy(busy, first, m, k + 1, incr)
      decreases 2 * n + c - m * c, c - k
    {
      NextTried(first, m, k, incr, n);
      ClosesAt(first, m, k + 1, incr, n, c);
      idx := if idx + incr >= n then idx + incr - n else idx + incr;
      if idx == start {
        NextStart(first, m, incr, n);
        idx := if idx + 1 >= n then idx + 1 - n else idx + 1;
        start := if start + 1 >= n then start + 1 - n else start + 1;
        Distribute(c, m, 1);
        m, k := m + 1, 0;
        if i >= n {
          if i >= n * 2 {
            AllBusy(busy, first, m, c, incr);
            return GaveUp;
          }
        }
      } else {
        k := k + 1;
      }
      if slots[idx].Free? { return Claimed(idx); }
      if slots[idx].Match? { return Matched(idx); }
      i := i + 1;
    }
  }

  // DoInsert's search for a slot when it runs alone, with n slots in use: home slot, a
  // likely empty slot if there is one (where an equal key is ignored), four linear
  // probes, and then strides.
  method FindSlot(slots: seq<Seen>, n: nat, home: nat, likely: nat, incr: nat) returns (r: Outcome)
    requires 2 <= n <= |slots| && home < n && likely < |slots| && 0 < incr < n
    ensures r.Claimed? ==> r.slot < |slots| && slots[r.slot].Free? && (r.slot < n || r.slot == likely)
    ensures r.Matched? ==> r.slot < n && slots[r.slot].Match?
    // it gives up exactly if the table is full
    ensures r.GaveUp? <==> (forall slot :: 0 <= slot < n ==> slots[slot].Taken?) && !(likely > 0 && slots[likely].Free?)
  {
    var idx := home;
    if slots[idx].Free? { return Claimed(idx); }
    if slots[idx].Match? { return Matched(idx); }
    if likely > 0 && slots[likely].Free? { return Claimed(likely); }
    for i := 0 to 4
      invariant idx < n && slots[idx].Taken?
    {
      idx := if idx + 1 >= n then idx + 1 - n else idx + 1;
      if slots[idx].Free? { return Claimed(idx); }
      if slots[idx].Match? { return Matched(idx); }
    }
    r := Jump(slots, n, idx, incr);
  }

  lemma CyclePositive(incr: nat, n: nat, c: nat)
    requires n > 0 && Cycle(incr, n, c)
    ensures c > 0
  {
  }

  lemma TriedStart(start: nat, incr: nat, n: nat)
    requires start < n
    ensures Tried(start, 0, 0, incr, n) == start
  {
    SmallMod(start, n);
  }

  // When the search gives up, every slot has been tried.
  lemma AllBusy(busy: seq<bool>, start: nat, m: nat, c: nat, incr: nat)
    requires |busy| >= 2 && start < |busy| && 0 < incr < |busy| && Cycle(incr, |busy|, c)
    requires forall j :: 0 <= j < m ==> CycleBusy(busy, start, j, c, incr)
    requires m * c + 3 >= 2 * |busy| && m > 0
    ensures forall slot :: 0 <= slot < |busy| ==> busy[slot]
  {
    var n := |busy|;
    assert m * c >= n by { if n == 2 { ShortTable(incr, c, m); } }
    forall slot | 0 <= slot < n ensures busy[slot] {
      var j, k := CyclesCover(incr, n, c, m, start, slot);
      assert CycleBusy(busy, start, j, c, incr);
      assert Tried(start, j, k, incr, n) == slot;
    }
  }

  lemma ShortTable(incr: nat, c: nat, m: nat)
    requires incr == 1 && Cycle(incr, 2, c) && m > 0
    ensures m * c >= 2
  {
    assert c != 1 by { assert Res(1, 1, 2) == 1; }
    MulMono(1, m, c);
  }
}
