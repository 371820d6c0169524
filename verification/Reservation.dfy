// Memory reservations: dummy entries that make a cache account for memory used
// elsewhere (CacheReservationManagerImpl), and the distribution of placeholder
// charges between a primary and a compressed secondary cache
// (CacheWithSecondaryAdapter).
module Reservation {

  const DUMMY: nat := 256 * 1024
  const WORD: nat := 0x1_0000_0000_0000_0000

  // The least multiple of the dummy size that covers `used`.
  predicate Covers(size: nat, used: nat) {
    used <= size < used + DUMMY && size % DUMMY == 0
  }

  class Manager {
    const delayed: bool
    var memoryUsed: nat
    var size: nat             // cache_allocated_size_
    var dummies: seq<nat>          // dummy_handles_, as the keys they were inserted under
    var nextKey: nat
    var accepts: seq<bool>         // whether the cache accepts the coming insertions

    ghost predicate Valid()
      reads this
    {
      && size == DUMMY * |dummies|
      && (forall i, j :: 0 <= i < j < |dummies| ==> dummies[i] < dummies[j])
      && (forall i :: 0 <= i < |dummies| ==> dummies[i] < nextKey)
    }

    constructor (delayed: bool, accepts: seq<bool>)
      ensures Valid() && memoryUsed == 0 && size == 0 && this.delayed == delayed
    {
      this.delayed, this.accepts := delayed, accepts;
      memoryUsed, size, dummies, nextKey := 0, 0, [], 0;
    }

    // IncreaseCacheReservation: insert dummies until they cover newUsed or the cache
    // refuses one.
    method Increase(newUsed: nat) returns (ok: bool)
      requires Valid() && size < newUsed
      modifies this
      ensures Valid() && memoryUsed == old(memoryUsed) && old(dummies) <= dummies
      ensures if ok then Covers(size, newUsed) else size < newUsed
      // it fails exactly if the cache refuses an insertion, and then at once
      ensures Answered(old(accepts), accepts, ok)
    {
      ok := true;
      while newUsed > size
        invariant Valid() && memoryUsed == old(memoryUsed) && old(dummies) <= dummies && size < newUsed + DUMMY
        invariant ok && Answered(old(accepts), accepts, true)
        decreases newUsed + DUMMY - size
      {
        if accepts != [] {
          ok := accepts[0];
          accepts := accepts[1..];
          if !ok { return; }
        }
        dummies := dummies + [nextKey];
        nextKey := nextKey + 1;
        size := size + DUMMY;
      }
      MultipleOf(size, |dummies|);
    }

    // DecreaseCacheReservation: release the newest dummies that are not needed.
    method Decrease(newUsed: nat)
      requires Valid() && newUsed <= size
      modifies this
      ensures Valid() && memoryUsed == old(memoryUsed) && dummies <= old(dummies) && Covers(size, newUsed)
      ensures accepts == old(accepts) && nextKey == old(nextKey)
    {
      while newUsed + DUMMY <= size
        invariant Valid() && memoryUsed == old(memoryUsed) && dummies <= old(dummies) && newUsed <= size
        invariant accepts == old(accepts) && nextKey == old(nextKey)
        decreases size
      {
        // the assertion of the code: there is a dummy to release
        assert dummies != [];
        dummies := dummies[..|dummies| - 1];
        size := size - DUMMY;
      }
      MultipleOf(size, |dummies|);
    }

    // UpdateCacheReservation
    method Update(newUsed: nat) returns (ok: bool)
      requires Valid()
      modifies this
      ensures Valid() && memoryUsed == newUsed
      ensures ok && !delayed ==> Covers(size, newUsed)
      ensures ok && delayed ==> Covers(size, newUsed) || (size == old(size) && newUsed >= size / 4 * 3)
      ensures delayed && old(size) / 4 * 3 <= newUsed <= old(size) ==>
        ok && size == old(size) && dummies == old(dummies)
      ensures ok ==> newUsed <= size
      ensures !ok ==> old(size) <= size < newUsed
      ensures Answered(old(accepts), accepts, ok)
      ensures dummies <= old(dummies) || old(dummies) <= dummies
    {
      memoryUsed := newUsed;
      ok := true;
      MultipleOf(size, |dummies|);
      if newUsed > size {
        ok := Increase(newUsed);
        Grown(old(size), size, old(|dummies|), |dummies|);
      } else if newUsed < size {
        if !(delayed && newUsed >= size / 4 * 3) { Decrease(newUsed); }
      }
    }

    // ConcurrentCacheReservationManager::UpdateCacheReservation(delta, increase)
    method Change(delta: nat, increase: bool) returns (ok: bool)
      requires Valid()
      modifies this
      ensures Valid() && memoryUsed == if increase then old(memoryUsed) + delta else Less(old(memoryUsed), delta)
      ensures ok && !delayed ==> Covers(size, memoryUsed)
      ensures Answered(old(accepts), accepts, ok)
    {
      ok := Update(if increase then memoryUsed + delta else if memoryUsed > delta then memoryUsed - delta else 0);
    }
  }

  // Of these answers of the cache those that are no longer left were asked for; all of them
  // were positive, except for the last one if the result is negative.
  predicate Answered(answers: seq<bool>, left: seq<bool>, ok: bool) {
    && |left| <= |answers| && left == answers[|answers| - |left|..]
    && (forall i :: 0 <= i < |answers| - |left| - (if ok then 0 else 1) ==> answers[i])
    && (!ok ==> |left| < |answers| && !answers[|answers| - |left| - 1])
  }

  // Subtraction that saturates at zero.
  function Less(a: nat, b: nat): nat {
    if a > b then a - b else 0
  }

  lemma MultipleOf(a: nat, k: nat)
    requires a == DUMMY * k
    ensures a % DUMMY == 0
  {
  }

  lemma Grown(a: nat, a': nat, k: nat, k': nat)
    requires a == DUMMY * k && a' == DUMMY * k' && k <= k'
    ensures a <= a'
  {
  }

  // -- distribution between two caches ----------------------------------------------------------

  const CHUNK: nat := 1024 * 1024

  // x & ~(CHUNK - 1)
  function WholeChunks(x: nat): (r: nat)
    ensures r <= x < r + CHUNK && r % CHUNK == 0
  {
    x - x % CHUNK
  }

  // static_cast<size_t>(x * ratio), for an exact ratio
  function Share(x: nat, ratio: real): (r: nat)
    requires 0.0 <= ratio
  {
    Positive(x as real, ratio);
    (x as real * ratio).Floor
  }

  lemma Positive(x: real, ratio: real)
    requires x >= 0.0 && ratio >= 0.0
    ensures x * ratio >= 0.0
  {
  }

  lemma ShareMonotone(a: nat, b: nat, ratio: real)
    requires 0.0 <= ratio && a <= b
    ensures Share(a, ratio) <= Share(b, ratio)
  {
    Positive((b - a) as real, ratio);
    assert b as real * ratio == a as real * ratio + (b - a) as real * ratio;
  }

  // The ratio that the constructor computes gives the secondary capacity back.
  lemma ShareOfCapacity(sec: nat, capacity: nat)
    requires capacity > 0
    ensures Share(capacity, sec as real / capacity as real) == sec
  {
    assert capacity as real * (sec as real / capacity as real) == sec as real;
  }

  // size_t subtraction
  function Wrap(x: int): nat { x % WORD }

  class Adapter {
    const ratio: real              // sec_cache_res_ratio_
    const pri: Manager             // pri_cache_res_
    var capacity: nat              // of the primary cache, which is the total budget
    var secCapacity: nat
    var placeholder: nat           // placeholder_usage_
    var reserved: nat              // reserved_usage_
    var secReserved: nat           // sec_reserved_
    var deflated: nat              // what the secondary cache was asked to give up

    ghost predicate Shape()
      reads this, pri
    {
      && 0.0 <= ratio <= 1.0 && pri.Valid()
      && secCapacity == Share(capacity, ratio) && secReserved == Share(reserved, ratio)
      && reserved % CHUNK == 0 && reserved <= placeholder
      && secCapacity < WORD && secReserved < WORD && pri.memoryUsed < WORD
    }

    // The primary cache reserves what the secondary cache may use and has not given
    // up to placeholders.
    ghost predicate Law()
      reads this, pri
    {
      pri.memoryUsed + secReserved == secCapacity && deflated == secReserved && reserved <= capacity
    }

    constructor (sec: nat, capacity: nat, accepts: seq<bool>)
      requires 0 < capacity && sec <= capacity && sec < WORD
      ensures Shape() && Law() && placeholder == 0 && secCapacity == sec && this.capacity == capacity && fresh(pri)
      ensures ratio == sec as real / capacity as real
    {
      ratio := sec as real / capacity as real;
      var p := new Manager(false, accepts);
      var ok := p.Update(sec);
      pri := p;
      this.capacity, secCapacity := capacity, sec;
      placeholder, reserved, secReserved, deflated := 0, 0, 0, 0;
      new;
      ShareOfCapacity(sec, capacity);
      RatioBounds(sec, capacity);
    }

    // Insert of a placeholder with a handle.
    method Insert(charge: nat) returns (ok: bool)
      requires Shape()
      modifies this, pri
      ensures Shape() && placeholder == old(placeholder) + charge && capacity == old(capacity)
      ensures secCapacity == old(secCapacity)
      ensures old(Law()) ==> Law()
      // the secondary cache takes its share as soon as a whole chunk is due
      ensures placeholder <= capacity ==> placeholder - reserved < CHUNK
      // and not before
      ensures placeholder > capacity || placeholder - old(reserved) < CHUNK ==> reserved == old(reserved)
    {
      ok := true;
      placeholder := placeholder + charge;
      if placeholder <= capacity && placeholder - reserved >= CHUNK {
        ghost var was := reserved;
        ChunksGrow(reserved, placeholder);
        reserved := WholeChunks(placeholder);
        ShareMonotone(was, reserved, ratio);
        ShareMonotone(reserved, capacity, ratio);
        var secCharge := Share(reserved, ratio) - secReserved;
        deflated := deflated + secCharge;
        ok := pri.Change(secCharge, false);
        secReserved := secReserved + secCharge;
      }
    }

    // Release of a placeholder that erases it.
    method Release(charge: nat) returns (ok: bool)
      requires Shape() && charge <= placeholder
      requires pri.memoryUsed + secReserved < WORD
      modifies this, pri
      ensures placeholder == old(placeholder) - charge && capacity == old(capacity) && secCapacity == old(secCapacity)
      ensures old(Law()) ==> Shape() && Law()
      // chunks are given back as soon as they are not covered by placeholders, and not before
      ensures old(Law()) && placeholder < old(reserved) ==> 0 <= placeholder - reserved < CHUNK
      ensures placeholder >= old(reserved) ==> reserved == old(reserved) && secReserved == old(secReserved)
    {
      ok := true;
      placeholder := placeholder - charge;
      if placeholder <= capacity && placeholder < reserved {
        ghost var was := reserved;
        reserved := WholeChunks(placeholder);
        ShareMonotone(reserved, was, ratio);
        var secCharge := secReserved - Share(reserved, ratio);
        deflated := Less(deflated, secCharge);
        ok := pri.Change(secCharge, true);
        secReserved := secReserved - secCharge;
      }
    }

    // SetCapacity
    method SetCapacity(capacity': nat) returns (ok: bool)
      requires Shape() && Share(capacity', ratio) < WORD
      modifies this, pri
      ensures capacity == capacity' && placeholder == old(placeholder) && secCapacity == Share(capacity', ratio)
      ensures reserved == ReservedAfter(old(secCapacity), old(placeholder), old(reserved), capacity', ratio)
      ensures secReserved == Share(reserved, ratio) && deflated == old(deflated) && pri.Valid()
      ensures var lost, owed := old(secCapacity) - secCapacity, old(secReserved) - secReserved;
        pri.memoryUsed == if lost > 0 then Less(old(pri.memoryUsed), Wrap(lost - owed)) else old(pri.memoryUsed) - lost
      ensures old(Law()) ==> Shape()
      // the law survives exactly if no more stays reserved than fits the new capacity
      // and the secondary cache is owed nothing back
      ensures old(Law()) ==>
        var r := ReservedAfter(old(secCapacity), old(placeholder), old(reserved), capacity', ratio);
        (Law() <==> r <= capacity' && Share(r, ratio) == old(secReserved))
      // in particular if all placeholders fit
      ensures old(Law()) && old(placeholder) <= capacity' ==> Law() && reserved == old(reserved)
      // the primary reservation alone is right exactly if the secondary cache does not
      // shrink, or loses at least as much capacity as it is owed back
      ensures old(Law()) ==>
        var r := ReservedAfter(old(secCapacity), old(placeholder), old(reserved), capacity', ratio);
        (pri.memoryUsed + secReserved == secCapacity
         <==> Share(capacity', ratio) >= old(secCapacity)
              || old(secCapacity) - Share(capacity', ratio) >= old(secReserved) - Share(r, ratio))
    {
      hide Share;
      ok := true;
      var sec, oldSec := Share(capacity', ratio), secCapacity;
      SharesBounded(reserved, capacity, ratio);
      SharesBounded(reserved, capacity', ratio);
      SharesBounded(WholeChunks(capacity'), capacity', ratio);
      if oldSec > sec {
        secCapacity := sec;
        if placeholder > capacity' { reserved := WholeChunks(capacity'); }
        var newSecReserved := Share(reserved, ratio);
        CapacityLaw(oldSec, sec, secReserved, newSecReserved, pri.memoryUsed);
        ok := pri.Change(Wrap((oldSec - sec) - (secReserved - newSecReserved)), false);
        secReserved := newSecReserved;
        capacity := capacity';
      } else {
        capacity := capacity';
        ok := pri.Change(sec - oldSec, true);
        secCapacity := sec;
      }
    }
  }

  // What SetCapacity leaves reserved.
  function ReservedAfter(secCapacity: nat, placeholder: nat, reserved: nat, capacity': nat, ratio: real): nat
    requires 0.0 <= ratio
  {
    if Share(capacity', ratio) < secCapacity && placeholder > capacity' then WholeChunks(capacity') else reserved
  }

  // The arithmetic of shrinking: with a negative difference the subtraction wraps
  // around and the primary reservation saturates at zero, which is too little.
  lemma CapacityLaw(oldSec: nat, sec: nat, secReserved: nat, newSecReserved: nat, pri: nat)
    requires sec < oldSec < WORD && secReserved < WORD && (newSecReserved <= sec || newSecReserved == secReserved)
    ensures pri + secReserved == oldSec && newSecReserved <= sec ==>
      (Less(pri, Wrap((oldSec - sec) - (secReserved - newSecReserved))) + newSecReserved == sec
       <==> oldSec - sec >= secReserved - newSecReserved)
  {
  }

  // A budget of 100 chunks, all of it taken by placeholders.
  method Full(sec: nat) returns (a: Adapter)
    requires sec <= 100 * CHUNK
    ensures fresh(a) && fresh(a.pri) && a.Shape() && a.Law() && a.ratio == sec as real / (100 * CHUNK) as real
    ensures a.capacity == a.placeholder == a.reserved == 100 * CHUNK && a.secCapacity == sec
  {
    a := new Adapter(sec, 100 * CHUNK, []);
    var _ := a.Insert(100 * CHUNK);
  }

  // The budget shrinks by half a chunk. The secondary cache loses a quarter of a chunk
  // but is owed half a chunk, and the primary reservation ends up too small.
  method ShrinkExample() returns (a: Adapter)
    ensures !a.Law() && a.pri.memoryUsed + a.secReserved < a.secCapacity
  {
    a := Full(50 * CHUNK);
    HalfShares();
    var _ := a.SetCapacity(99 * CHUNK + CHUNK / 2);
  }

  // The budget shrinks by half. The reservation of the primary cache is right, but the
  // secondary cache is never told to inflate again.
  method NotInflatedExample() returns (a: Adapter)
    ensures !a.Law() && a.pri.memoryUsed + a.secReserved == a.secCapacity && a.deflated > a.secReserved
  {
    a := Full(50 * CHUNK);
    HalfShares();
    var _ := a.SetCapacity(50 * CHUNK);
  }

  // Without a secondary budget the reserved usage is never adjusted.
  method OverReservedExample() returns (a: Adapter)
    ensures !a.Law() && a.reserved > a.capacity
  {
    a := Full(0);
    assert Share(CHUNK, a.ratio) == 0;
    var _ := a.SetCapacity(CHUNK);
  }

  lemma HalfShares()
    ensures (50 * CHUNK) as real / (100 * CHUNK) as real == 0.5
    ensures WholeChunks(99 * CHUNK + CHUNK / 2) == 99 * CHUNK && WholeChunks(50 * CHUNK) == 50 * CHUNK
    ensures Share(100 * CHUNK, 0.5) == 50 * CHUNK && Share(50 * CHUNK, 0.5) == 25 * CHUNK
    ensures Share(99 * CHUNK + CHUNK / 2, 0.5) == 49 * CHUNK + 3 * (CHUNK / 4)
    ensures Share(99 * CHUNK, 0.5) == 49 * CHUNK + CHUNK / 2
  {
  }

  lemma RatioBounds(sec: nat, capacity: nat)
    requires 0 < capacity && sec <= capacity
    ensures 0.0 <= sec as real / capacity as real <= 1.0
    ensures Share(0, sec as real / capacity as real) == 0
  {
  }

  lemma ChunksGrow(reserved: nat, placeholder: nat)
    requires reserved % CHUNK == 0 && reserved + CHUNK <= placeholder
    ensures reserved <= WholeChunks(placeholder)
  {
  }

  lemma SharesBounded(x: nat, capacity: nat, ratio: real)
    requires 0.0 <= ratio
    ensures x <= capacity ==> Share(x, ratio) <= Share(capacity, ratio)
  {
    if x <= capacity { ShareMonotone(x, capacity, ratio); }
  }
}