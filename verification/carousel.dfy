/**
 * Wrap-around navigation over `n` slides, as `(i + 1) % n` and `(i - 1 + n) % n`; shared by
 * the image slider and the panorama viewer.
 */
module Carousel {

  /** The slide after `i`: the next one, or the first after the last. */
  function Next(i: nat, n: nat): (r: nat)
    requires i < n
    ensures r < n
    ensures r == if i == n - 1 then 0 else i + 1
  {
    (i + 1) % n
  }

  /** The slide before `i`: the previous one, or the last before the first. */
  function Prev(i: nat, n: nat): (r: nat)
    requires i < n
    ensures r < n
    ensures r == if i == 0 then n - 1 else i - 1
  {
    (i - 1 + n) % n
  }

  /** Going back undoes going forward. */
  lemma PrevUndoesNext(i: nat, n: nat)
    requires i < n
    ensures Prev(Next(i, n), n) == i
  {
  }

  /** Going forward undoes going back. */
  lemma NextUndoesPrev(i: nat, n: nat)
    requires i < n
    ensures Next(Prev(i, n), n) == i
  {
  }

  /** Where `k` presses of "next" lead from slide `i`. */
  function Advance(i: nat, n: nat, k: nat): (r: nat)
    requires i < n
    ensures r < n
    decreases k
  {
    if k == 0 then i else Next(Advance(i, n, k - 1), n)
  }

  /** Before the wrap-around, `k` steps forward from `i` land on `i + k`. */
  lemma {:induction false} AdvanceBeforeWrap(i: nat, n: nat, k: nat)
    requires i + k < n
    ensures Advance(i, n, k) == i + k
    decreases k
  {
    if k > 0 {
      AdvanceBeforeWrap(i, n, k - 1);
    }
  }

  /** `a` steps and then `b` more are `a + b` steps. */
  lemma {:induction false} AdvanceAdd(i: nat, n: nat, a: nat, b: nat)
    requires i < n
    ensures Advance(i, n, a + b) == Advance(Advance(i, n, a), n, b)
    decreases b
  {
    if b > 0 {
      AdvanceAdd(i, n, a, b - 1);
      assert a + b - 1 == a + (b - 1);
    }
  }

  /** `n` steps forward come back to the starting slide. */
  lemma FullCycle(i: nat, n: nat)
    requires i < n
    ensures Advance(i, n, n) == i
  {
    AdvanceBeforeWrap(i, n, n - 1 - i);
    assert Advance(i, n, n - i) == 0;
    AdvanceAdd(i, n, n - i, i);
    assert n - i + i == n;
    AdvanceBeforeWrap(0, n, i);
  }

  /** Stepping forward is periodic with period `n`. */
  lemma Periodic(i: nat, n: nat, k: nat)
    requires i < n
    ensures Advance(i, n, n + k) == Advance(i, n, k)
  {
    AdvanceAdd(i, n, n, k);
    FullCycle(i, n);
  }
}
