/** Round-robin choice of a loop: EventLoopThreadPool.cpp. */
module ThreadPool {

  /** Where next_ stands after a choice among `n` loops. */
  function Advance(next: nat, n: nat): nat { if next + 1 >= n then 0 else next + 1 }

  /** Where it stands after `k` choices from the start. */
  function NextAfter(k: nat, n: nat): nat { if k == 0 then 0 else Advance(NextAfter(k - 1, n), n) }

  /** How many of the first `k` choices were loop `i`. */
  function Chosen(k: nat, n: nat, i: nat): nat {
    if k == 0 then 0 else Chosen(k - 1, n, i) + if NextAfter(k - 1, n) == i then 1 else 0
  }

  lemma {:induction false} NextIsRemainder(k: nat, n: nat)
    requires n > 0
    ensures NextAfter(k, n) == k % n
  {
    if k == 0 {
    } else {
      NextIsRemainder(k - 1, n);
      StepRemainder(k - 1, n);
    }
  }

  lemma StepRemainder(k: nat, n: nat)
    requires n > 0
    ensures (k + 1) % n == if k % n + 1 == n then 0 else k % n + 1
    ensures (k + 1) / n == if k % n + 1 == n then k / n + 1 else k / n
  {
    var q, r := k / n, k % n;
    assert k + 1 == q * n + (r + 1);
    if r + 1 == n {
      assert k + 1 == (q + 1) * n;
      Divides(k + 1, q + 1, 0, n);
    } else {
      Divides(k + 1, q, r + 1, n);
    }
  }

  lemma Gap(q: nat, p: nat, n: nat)
    requires q < p
    ensures p * n >= q * n + n
  {
    if q + 1 < p { Gap(q, p - 1, n); }
    assert p * n == (p - 1) * n + n;
  }

  /** Quotient and remainder are unique. */
  lemma Divides(x: nat, q: nat, r: nat, n: nat)
    requires n > 0 && r < n && x == q * n + r
    ensures x / n == q && x % n == r
  {
    var p, s := x / n, x % n;
    assert x == p * n + s;
    if q < p {
      Gap(q, p, n);
    } else if p < q {
      Gap(p, q, n);
    }
  }

  /** Loop `i` is chosen once a lap, and in the lap under way once its turn has come. */
  lemma {:induction false} ExactShare(k: nat, n: nat, i: nat)
    requires i < n
    ensures Chosen(k, n, i) == k / n + if i < k % n then 1 else 0
  {
    if k == 0 {
    } else {
      ExactShare(k - 1, n, i);
      NextIsRemainder(k - 1, n);
      StepRemainder(k - 1, n);
    }
  }

  /** After any number of choices every loop has had the floor or the ceiling of its share, and no
      loop is ahead of another by more than one. */
  lemma RoundRobinIsFair(k: nat, n: nat, i: nat, j: nat)
    requires i < n && j < n
    ensures NextAfter(k, n) == k % n
    ensures Chosen(k, n, i) == k / n || (Chosen(k, n, i) == k / n + 1 && k % n != 0)
    ensures Chosen(k, n, i) <= Chosen(k, n, j) + 1
    ensures k % n == 0 ==> Chosen(k, n, i) == Chosen(k, n, j)
  {
    NextIsRemainder(k, n);
    ExactShare(k, n, i);
    ExactShare(k, n, j);
  }

  class EventLoopThreadPool<L> {
    const baseLoop: L
    var loops: seq<L>
    var next: nat
    ghost var choices: nat      // calls to GetNextLoop since the loops were started

    ghost predicate Valid()
      reads this
    { (loops == [] ==> next == 0) && (loops != [] ==> next == NextAfter(choices, |loops|) && next < |loops|) }

    constructor (baseLoop: L)
      ensures Valid() && loops == [] && this.baseLoop == baseLoop && next == 0
    {
      this.baseLoop := baseLoop;
      loops, next, choices := [], 0, 0;
    }

    /** start(): one loop per thread, in the order the threads come up. */
    method Start(numThreads: nat, started: seq<L>)
      requires Valid() && loops == [] && |started| == numThreads
      modifies this
      ensures Valid() && loops == started && next == 0 && choices == 0
    {
      choices := 0;
      for i := 0 to numThreads
        invariant loops == started[..i] && next == 0 && choices == 0
      {
        loops := loops + [started[i]];
      }
    }

    /** Without worker loops the base loop serves everyone; with them, choice k is loop k mod n. */
    method GetNextLoop() returns (loop: L)
      requires Valid()
      modifies this`next, this`choices
      ensures Valid()
      ensures loops == [] ==> loop == baseLoop && next == old(next)
      ensures loops != [] ==> loop == loops[old(choices) % |loops|] && choices == old(choices) + 1
      ensures loops != [] ==> next == choices % |loops| == Advance(old(next), |loops|) && loop == loops[old(next)]
    {
      loop := baseLoop;
      if loops != [] {
        NextIsRemainder(choices, |loops|);
        NextIsRemainder(choices + 1, |loops|);
        loop := loops[next];
        next := next + 1;
        if next >= |loops| {
          next := 0;
        }
        choices := choices + 1;
      }
    }

    /** All loops: the workers, or the base loop alone. */
    method GetAllLoops() returns (all: seq<L>)
      ensures all != [] && (loops != [] ==> all == loops) && (loops == [] ==> all == [baseLoop])
    {
      all := if |loops| == 0 then [baseLoop] else loops;
    }
  }
}
