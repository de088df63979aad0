/** Circular navigation over the scenario list: the Next button and the
    auto-advance timer move forward with wraparound, the Prev button moves
    back with wraparound (app.js:289, app.js:304-305). `n` is the number of
    scenarios, which is never zero. */
module Navigation {

  /** `(i + 1) % n`: the index after `i`, wrapping from the last to the first. */
  function NextIndex(i: nat, n: nat): (r: nat)
    requires i < n
    ensures r < n
    ensures r == if i + 1 < n then i + 1 else 0
  {
    (i + 1) % n
  }

  /** `(i - 1 + n) % n`: the index before `i`, wrapping from the first to the last. */
  function PrevIndex(i: nat, n: nat): (r: nat)
    requires i < n
    ensures r < n
    ensures r == if 0 < i then i - 1 else n - 1
  {
    (i - 1 + n) % n
  }

  /** Prev undoes Next and Next undoes Prev. */
  lemma PrevNextInverse(i: nat, n: nat)
    requires i < n
    ensures PrevIndex(NextIndex(i, n), n) == i
    ensures NextIndex(PrevIndex(i, n), n) == i
  {
  }

  /** The index reached from `i` after `k` forward steps. */
  function AdvanceTimes(i: nat, n: nat, k: nat): (r: nat)
    requires i < n
    ensures r < n
  {
    if k == 0 then i else NextIndex(AdvanceTimes(i, n, k - 1), n)
  }

  /** Up to a full lap, `k` forward steps from `i` land on `i + k`, less
      `n` once the end of the list has been passed. */
  lemma {:induction false} AdvanceTimesWithinLap(i: nat, n: nat, k: nat)
    requires i < n && k <= n
    ensures AdvanceTimes(i, n, k) == if i + k < n then i + k else i + k - n
  {
    if k > 0 {
      AdvanceTimesWithinLap(i, n, k - 1);
    }
  }

  /** Stepping forward `n` times from any index comes back to it. */
  lemma {:induction false} FullCycle(i: nat, n: nat)
    requires i < n
    ensures AdvanceTimes(i, n, n) == i
  {
    AdvanceTimesWithinLap(i, n, n);
  }
}
