/**
 * The modular index arithmetic shared by the carousels:
 * `(i + 1) % n` forwards and `(i - 1 + n) % n` backwards, with JavaScript's
 * remainder operator.
 */
module CarouselIndex {
  /** JavaScript's `%` on integers: the remainder takes the sign of the dividend. */
  function JsRem(a: int, n: int): (r: int)
    requires n > 0
    ensures a >= 0 ==> 0 <= r < n
    ensures a >= 0 ==> r == a % n
    ensures a < 0 ==> -n < r <= 0
  {
    if a >= 0 then a % n else -((-a) % n)
  }

  /** The index after `i`: one further, wrapping from the last slide to the first. */
  function NextIndex(i: int, n: int): (r: int)
    requires n > 0
    ensures i >= -1 ==> 0 <= r < n
    ensures 0 <= i < n - 1 ==> r == i + 1
    ensures i == n - 1 ==> r == 0
  {
    JsRem(i + 1, n)
  }

  /** The index before `i`: one back, wrapping from the first slide to the last. */
  function PrevIndex(i: int, n: int): (r: int)
    requires n > 0
    ensures i >= 1 - n ==> 0 <= r < n
    ensures 0 < i < n ==> r == i - 1
    ensures i == 0 ==> r == n - 1
  {
    JsRem(i - 1 + n, n)
  }

  /** Backwards undoes forwards and forwards undoes backwards. */
  lemma PrevUndoesNext(i: int, n: int)
    requires 0 <= i < n
    ensures PrevIndex(NextIndex(i, n), n) == i
    ensures NextIndex(PrevIndex(i, n), n) == i
  {
  }

  /** The index reached from `i` after `k` presses of "next". */
  function Advance(i: int, n: int, k: nat): int
    requires n > 0
  {
    if k == 0 then i else NextIndex(Advance(i, n, k - 1), n)
  }

  /** Within one lap, `k` presses move exactly `k` slides on. */
  lemma {:induction false} AdvanceWithinLap(i: int, n: int, k: nat)
    requires 0 <= i && i + k < n
    ensures Advance(i, n, k) == i + k
  {
    if k > 0 {
      AdvanceWithinLap(i, n, k - 1);
    }
  }

  /** Pressing `a + b` times is pressing `a` times, then `b` times. */
  lemma {:induction false} AdvanceCompose(i: int, n: int, a: nat, b: nat)
    requires n > 0
    ensures Advance(i, n, a + b) == Advance(Advance(i, n, a), n, b)
  {
    if b > 0 {
      AdvanceCompose(i, n, a, b - 1);
    }
  }

  /** `n` presses of "next" bring the carousel back to where it started. */
  lemma FullCycle(i: int, n: int)
    requires 0 <= i < n
    ensures Advance(i, n, n) == i
  {
    AdvanceWithinLap(i, n, n - i - 1);
    assert Advance(i, n, n - i) == 0;
    AdvanceCompose(i, n, n - i, i);
    AdvanceWithinLap(0, n, i);
  }
}
