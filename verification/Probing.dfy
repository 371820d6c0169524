// Double hashing in FixedHyperClockTable: the i-th probe for a key is
// base + i * increment modulo a power-of-two table size, with an odd increment.
module Probing {

  datatype Key = Key(h0: nat, h1: nat)

  function Pow2(b: nat): (p: nat)
    ensures p >= 1
  {
    if b == 0 then 1 else 2 * Pow2(b - 1)
  }

  // size_t{hashed_key[0]} | 1U
  function Increment(key: Key): (inc: nat)
    ensures inc % 2 == 1 && inc / 2 == key.h0 / 2
  {
    if key.h0 % 2 == 0 then key.h0 + 1 else key.h0
  }

  function Probe(key: Key, i: nat, n: nat): (slot: nat)
    requires n > 0
    ensures slot < n
  {
    (key.h1 + i * Increment(key)) % n
  }

  // An odd factor never contributes a factor of two.
  lemma {:induction false} OddFactor(odd: nat, d: nat, b: nat)
    requires odd % 2 == 1
    requires (odd * d) % Pow2(b) == 0
    ensures d % Pow2(b) == 0
    decreases b
  {
    if b > 0 {
      var p := Pow2(b - 1);
      var q := (odd * d) / (2 * p);
      assert odd * d == 2 * (p * q);
      EvenProduct(odd, d);
      var e := d / 2;
      assert odd * e == p * q by {
        assert odd * (2 * e) == 2 * (odd * e);
      }
      MultipleModZero(p, q);
      OddFactor(odd, e, b - 1);
      var f := e / p;
      assert d == 2 * (p * f);
      assert d == (2 * p) * f;
      MultipleModZero(2 * p, f);
    }
  }

  lemma EvenProduct(odd: nat, d: nat)
    requires odd % 2 == 1 && (odd * d) % 2 == 0
    ensures d % 2 == 0
  {
    var k := odd / 2;
    assert odd * d == 2 * (k * d) + d;
  }

  lemma MultipleModZero(p: nat, q: nat)
    requires p > 0
    ensures (p * q) % p == 0
    decreases q
  {
    if q > 0 {
      MultipleModZero(p, q - 1);
      assert p * q == p * (q - 1) + p;
      ModAddSelf(p * (q - 1), p);
    }
  }

  lemma ModAddSelf(a: nat, p: nat)
    requires p > 0
    ensures (a + p) % p == a % p
  {
    var q := a / p;
    assert a + p == p * (q + 1) + a % p;
    DivModUnique(a + p, p, q + 1, a % p);
  }

  lemma DivModUnique(a: int, p: nat, q: int, r: nat)
    requires p > 0 && a == p * q + r && r < p
    ensures a / p == q && a % p == r
  {
    var d := q - a / p;
    assert p * d == a % p - r;
    assert d < 1 by { if d >= 1 { MulAtLeast(p, d); } }
    assert p * -d == -(p * d);
    assert d > -1 by { if d <= -1 { MulAtLeast(p, -d); } }
  }

  lemma MulAtLeast(p: int, d: int)
    requires p > 0 && d >= 1
    ensures p * d >= p
  {
    assert p * d == p * (d - 1) + p;
  }

  // Equal residues differ by a multiple of the modulus.
  lemma ModDifference(a: nat, b: nat, n: nat)
    requires n > 0 && a >= b && a % n == b % n
    ensures (a - b) % n == 0
  {
    var q := a / n - b / n;
    assert a - b == n * q;
    DivModUnique(a - b, n, q, 0);
  }

  // "we cycle back to the first probe only after probing every slot exactly
  // once": two positions below the table size never probe the same slot.
  lemma ProbesDistinct(key: Key, i: nat, j: nat, b: nat)
    requires i < j < Pow2(b)
    ensures Probe(key, i, Pow2(b)) != Probe(key, j, Pow2(b))
  {
    if Probe(key, i, Pow2(b)) == Probe(key, j, Pow2(b)) {
      EqualProbes(key, i, j, Pow2(b));
      OddFactor(Increment(key), j - i, b);
      SmallMod(j - i, Pow2(b));
    }
  }

  lemma EqualProbes(key: Key, i: nat, j: nat, n: nat)
    requires n > 0 && i <= j && Probe(key, i, n) == Probe(key, j, n)
    ensures (Increment(key) * (j - i)) % n == 0
  {
    var inc := Increment(key);
    var x, y := key.h1 + j * inc, key.h1 + i * inc;
    assert x - y == inc * (j - i);
    MulNonNegative(inc, j - i);
    ModDifference(x, y, n);
  }

  lemma MulNonNegative(a: nat, b: nat)
    ensures a * b >= 0
  {
  }

  lemma SmallMod(d: nat, n: nat)
    requires d < n
    ensures d % n == d
  {
  }

  // One full cycle returns to the first slot.
  lemma ProbeWraps(key: Key, n: nat)
    requires n > 0
    ensures Probe(key, n, n) == Probe(key, 0, n)
  {
    var inc := Increment(key);
    ModAddMultiple(key.h1, n, inc);
  }

  lemma ModStep(a: nat, d: nat, n: nat)
    requires n > 0
    ensures (a + d) % n == (a % n + d) % n
  {
    var q, r := a / n, a % n;
    assert a == n * q + r;
    ModAddMultiple(r + d, n, q);
  }

  // The loop starts at the base and adds the increment, modulo the table size.
  lemma ProbeFollows(key: Key, i: nat, n: nat)
    requires n > 0
    ensures Probe(key, 0, n) == key.h1 % n
    ensures Probe(key, i + 1, n) == (Probe(key, i, n) + Increment(key)) % n
  {
    hide Increment;
    var inc := Increment(key);
    OneMore(i, inc);
    ModStep(key.h1 + i * inc, inc, n);
  }

  lemma OneMore(i: nat, inc: nat)
    ensures (i + 1) * inc == i * inc + inc && 0 * inc == 0
  {
  }

  // And nothing less does: the loop ends exactly when every slot was probed once.
  lemma CycleCloses(key: Key, i: nat, b: nat)
    requires 0 < i <= Pow2(b)
    ensures Probe(key, i, Pow2(b)) == Probe(key, 0, Pow2(b)) <==> i == Pow2(b)
  {
    if i < Pow2(b) { ProbesDistinct(key, 0, i, b); } else { ProbeWraps(key, i); }
  }

  lemma ModAddMultiple(a: nat, n: nat, k: nat)
    requires n > 0
    ensures (a + n * k) % n == a % n
    decreases k
  {
    if k > 0 {
      ModAddMultiple(a, n, k - 1);
      assert a + n * k == (a + n * (k - 1)) + n;
      ModAddSelf(a + n * (k - 1), n);
    }
  }

  // A set of naturals below n has at most n elements.
  lemma {:induction false} BoundedSetSize(s: set<nat>, n: nat)
    requires forall x :: x in s ==> x < n
    ensures |s| <= n
    decreases n
  {
    if n == 0 {
      assert s == {};
    } else {
      var t := s - {n - 1};
      BoundedSetSize(t, n - 1);
      assert s <= t + {n - 1};
      if n - 1 in s { assert s == t + {n - 1}; } else { assert s == t; }
    }
  }

  // The slots probed at positions below m.
  ghost function Probed(key: Key, m: nat, n: nat): (s: set<nat>)
    requires n > 0
    ensures forall x :: x in s ==> x < n
    ensures forall i :: 0 <= i < m ==> Probe(key, i, n) in s
    ensures forall x :: x in s ==> exists i :: 0 <= i < m && Probe(key, i, n) == x
  {
    set i | 0 <= i < m :: Probe(key, i, n)
  }

  lemma {:induction false} ProbedSize(key: Key, m: nat, b: nat)
    requires m <= Pow2(b)
    ensures |Probed(key, m, Pow2(b))| == m
  {
    if m == 0 {
      assert Probed(key, 0, Pow2(b)) == {};
    } else {
      var n := Pow2(b);
      ProbedSize(key, m - 1, b);
      var last := Probe(key, m - 1, n);
      forall i | 0 <= i < m - 1 ensures Probe(key, i, n) != last {
        ProbesDistinct(key, i, m - 1, b);
      }
      assert last !in Probed(key, m - 1, n);
      assert Probed(key, m, n) == Probed(key, m - 1, n) + {last};
    }
  }

  // Every slot is probed: a full cycle misses nothing.
  lemma ProbesCover(key: Key, slot: nat, b: nat)
    requires slot < Pow2(b)
    ensures exists i :: 0 <= i < Pow2(b) && Probe(key, i, Pow2(b)) == slot
  {
    var n := Pow2(b);
    ProbedSize(key, n, b);
    var s := Probed(key, n, n);
    if slot !in s {
      BoundedSetSize(s + {slot}, n);
      assert false;
    }
  }

  // The position at which Rollback stops: the probe position of `slot`.
  ghost function PosOf(key: Key, slot: nat, b: nat): (i: nat)
    requires slot < Pow2(b)
    ensures i < Pow2(b) && Probe(key, i, Pow2(b)) == slot
    ensures forall j :: 0 <= j < Pow2(b) && Probe(key, j, Pow2(b)) == slot ==> j == i
  {
    ProbesCover(key, slot, b);
    var i :| 0 <= i < Pow2(b) && Probe(key, i, Pow2(b)) == slot;
    assert forall j :: 0 <= j < Pow2(b) && Probe(key, j, Pow2(b)) == slot ==> j == i by {
      forall j | 0 <= j < Pow2(b) && Probe(key, j, Pow2(b)) == slot ensures j == i {
        if j < i { ProbesDistinct(key, j, i, b); }
        if i < j { ProbesDistinct(key, i, j, b); }
      }
    }
    i
  }

  // How often positions a..b of a probe sequence touch `slot`: what an entry
  // (or an unfinished probe or rollback) contributes to a displacements count.
  function Touches(key: Key, lo: nat, hi: nat, slot: nat, n: nat): (c: nat)
    requires n > 0
    decreases if lo < hi then hi - lo else 0
  {
    if lo >= hi then 0
    else (if Probe(key, lo, n) == slot then 1 else 0) + Touches(key, lo + 1, hi, slot, n)
  }

  // Extending the touched range at its far end by one probe.
  lemma {:induction false} TouchesSnoc(key: Key, lo: nat, hi: nat, slot: nat, n: nat)
    requires n > 0 && lo <= hi
    ensures Touches(key, lo, hi + 1, slot, n)
         == Touches(key, lo, hi, slot, n) + (if Probe(key, hi, n) == slot then 1 else 0)
    decreases hi + 1 - lo
  {
    if lo < hi { TouchesSnoc(key, lo + 1, hi, slot, n); }
  }

  // A probe inside the range is counted.
  lemma {:induction false} TouchesPositive(key: Key, lo: nat, hi: nat, i: nat, n: nat)
    requires n > 0 && lo <= i < hi
    ensures Touches(key, lo, hi, Probe(key, i, n), n) >= 1
    decreases i - lo
  {
    if lo < i { TouchesPositive(key, lo + 1, hi, i, n); }
  }
}
