/**
 * The cycle of groups: to write in group i a user must belong to group
 * (i + 1) mod N.  Python's % floors and Dafny's % is Euclidean; for the
 * positive modulus used here the two agree on every integer.
 */
module Cycle {

  /** The index of the group whose membership unlocks group `i`. */
  function NextIndex(i: int, n: nat): (j: nat)
    requires n > 0
    ensures j < n
    ensures 0 <= i < n - 1 ==> j == i + 1
    ensures i == n - 1 ==> j == 0
  {
    (i + 1) % n
  }

  /** `NextIndex` applied `k` times, starting from `i`. */
  function Advance(i: int, n: nat, k: nat): int
    requires n > 0
  {
    if k == 0 then i else NextIndex(Advance(i, n, k - 1), n)
  }

  /**
   * Within one turn of the cycle, k steps from a valid index i reach i + k,
   * wrapping round once past the last group.
   */
  lemma {:induction false} AdvanceWraps(i: nat, n: nat, k: nat)
    requires i < n && k <= n
    ensures Advance(i, n, k) == if i + k < n then i + k else i + k - n
  {
    if k > 0 {
      AdvanceWraps(i, n, k - 1);
    }
  }

  /** Cycle closure: N successor steps lead back to the starting group. */
  lemma CycleCloses(i: nat, n: nat)
    requires i < n
    ensures Advance(i, n, n) == i
  {
    AdvanceWraps(i, n, n);
  }

  /** In a cycle of at least two groups no group unlocks itself. */
  lemma NoSelfRequirement(i: nat, n: nat)
    requires 2 <= n && i < n
    ensures NextIndex(i, n) != i
  {
  }

  /** Every group is the requirement of exactly one group: the successor map is injective on [0, n). */
  lemma NextIndexInjective(i: nat, j: nat, n: nat)
    requires i < n && j < n && NextIndex(i, n) == NextIndex(j, n)
    ensures i == j
  {
  }
}
