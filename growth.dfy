/**
 * The growth policy of a concept's slot buffer (src/concept.c, add_slot):
 * an empty buffer grows to two slots, a full one doubles. The functions
 * here are pure; the lemmas say what repeated appends cost.
 */
module SlotGrowth {

  predicate IsPowerOfTwo(n: nat)
    decreases n
  {
    n == 1 || (n >= 2 && n % 2 == 0 && IsPowerOfTwo(n / 2))
  }

  /** The capacities a slot buffer can have: none yet, or a power of two of at least 2. */
  predicate IsCapacity(n: nat)
  {
    n == 0 || (n >= 2 && IsPowerOfTwo(n))
  }

  /** The capacity a full buffer is grown to. */
  function GrowCapacity(capacity: nat): (r: nat)
    ensures r > capacity && r >= 2
    ensures IsCapacity(capacity) ==> IsCapacity(r)
  {
    if capacity == 0 then 2 else capacity * 2
  }

  /** The capacity after making room for one more slot when `count` slots are in use. */
  function CapacityForNext(count: nat, capacity: nat): (r: nat)
    ensures count <= capacity ==> count < r
    ensures count < capacity ==> r == capacity
    ensures IsCapacity(capacity) ==> IsCapacity(r)
    ensures r <= 2 * capacity || r == 2
  {
    if count >= capacity then GrowCapacity(capacity) else capacity
  }

  /** The capacity of a buffer that started empty after `n` appends. */
  function CapacityAfterAppends(n: nat): (capacity: nat)
  {
    if n == 0 then 0 else CapacityForNext(n - 1, CapacityAfterAppends(n - 1))
  }

  /** The number of slots copied by reallocation during the first `n` appends. */
  function CopiesAfterAppends(n: nat): (copies: nat)
  {
    if n == 0 then 0
    else
      var count := n - 1;
      CopiesAfterAppends(count) + (if count >= CapacityAfterAppends(count) then count else 0)
  }

  /** After `n` appends the buffer holds all `n` slots and wastes less than half of itself. */
  lemma {:induction false} CapacityAfterAppendsBounds(n: nat)
    ensures n <= CapacityAfterAppends(n) <= 2 * n
    ensures IsCapacity(CapacityAfterAppends(n))
  {
    if n > 0 {
      CapacityAfterAppendsBounds(n - 1);
    }
  }

  /**
   * Amortized constant cost: the slots copied by all reallocations so far
   * are exactly two fewer than the capacity, hence fewer than twice the
   * number of appends.
   */
  lemma {:induction false} CopiesAfterAppendsBound(n: nat)
    ensures n > 0 ==> CopiesAfterAppends(n) + 2 == CapacityAfterAppends(n)
    ensures CopiesAfterAppends(n) <= 2 * n
  {
    if n > 0 {
      CopiesAfterAppendsBound(n - 1);
      CapacityAfterAppendsBounds(n - 1);
    }
  }
}
