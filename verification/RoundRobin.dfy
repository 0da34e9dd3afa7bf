// src/producer.rs: round_robin_indices, and why it is fair whatever the two counts'
// common divisors are.
module RoundRobin {
  function RoundRobinIndices(i: nat, nQueues: nat, nPriorities: nat): (nat, nat)
    requires nQueues > 0 && nPriorities > 0
  {
    (i % nQueues, i / nQueues % nPriorities)
  }

  lemma Monotone(c: nat, a: nat, b: nat)
    requires a <= b
    ensures c * a <= c * b
  {}

  lemma DivMod(a: nat, b: nat)
    requires b > 0
    ensures a == b * (a / b) + a % b
  {}

  lemma OneMore(b: nat, x: nat)
    ensures b * (x + 1) == b * x + b
  {}

  lemma Quotient(b: nat, x: nat, y: nat, u: nat, v: nat)
    requires y < b && v < b && b * x + y == b * u + v
    ensures x == u && y == v
  {
    if x < u {
      Monotone(b, x + 1, u);
      OneMore(b, x);
    } else if u < x {
      Monotone(b, u + 1, x);
      OneMore(b, u);
    }
  }

  lemma DivModUnique(a: nat, b: nat, x: nat, y: nat)
    requires b > 0 && y < b && a == b * x + y
    ensures a / b == x && a % b == y
  {
    DivMod(a, b);
    Quotient(b, a / b, a % b, x, y);
  }

  lemma QuotientBelow(r: nat, nq: nat, np: nat)
    requires nq > 0 && r < nq * np
    ensures r / nq < np
  {
    DivMod(r, nq);
    if r / nq >= np {
      Monotone(nq, np, r / nq);
    }
  }

  lemma Regroup(nq: nat, np: nat, k: nat, p: nat, q: nat)
    ensures nq * np * k + (nq * p + q) == nq * (np * k + p) + q
  {
    assert nq * np * k == nq * (np * k);
  }

  lemma CodeBelow(nq: nat, np: nat, q: nat, p: nat)
    requires q < nq && p < np
    ensures q + nq * p < nq * np
  {
    Monotone(nq, p + 1, np);
  }

  lemma PairOfParts(i: nat, nq: nat, np: nat, k: nat, p: nat, q: nat)
    requires q < nq && p < np && i == nq * np * k + (nq * p + q)
    ensures i % nq == q && i / nq % np == p
  {
    Regroup(nq, np, k, p, q);
    DivModUnique(i, nq, np * k + p, q);
    DivModUnique(np * k + p, np, k, p);
  }

  /** The pair of job i, from its place i % (nq * np) in the cycle. */
  lemma PairOfPlace(i: nat, nq: nat, np: nat)
    requires nq > 0 && np > 0
    ensures nq * np > 0
    ensures i % nq == i % (nq * np) % nq
    ensures i / nq % np == i % (nq * np) / nq
  {
    CodeBelow(nq, np, 0, 0);
    var w := nq * np;
    var r := i % w;
    DivMod(i, w);
    DivMod(r, nq);
    QuotientBelow(r, nq, np);
    PairOfParts(i, nq, np, i / w, r / nq, r % nq);
  }

  /** A job gets the pair (q, p) exactly when it stands at place q + nq * p of its cycle. */
  lemma PairIsPlaceInCycle(i: nat, nq: nat, np: nat, q: nat, p: nat)
    requires q < nq && p < np
    ensures q + nq * p < nq * np
    ensures RoundRobinIndices(i, nq, np) == (q, p) <==> i % (nq * np) == q + nq * p
  {
    CodeBelow(nq, np, q, p);
    PairOfPlace(i, nq, np);
    var r := i % (nq * np);
    DivMod(r, nq);
    if r == q + nq * p {
      DivModUnique(r, nq, p, q);
    }
  }

  lemma ApartByACycle(i: nat, j: nat, w: nat)
    requires w > 0 && i < j && i % w == j % w
    ensures j - i >= w
  {
    var a, b := i / w, j / w;
    DivMod(i, w);
    DivMod(j, w);
    if b <= a {
      Monotone(w, b, a);
    } else {
      Monotone(w, a + 1, b);
      OneMore(w, a);
    }
  }

  /** The first number from start on that leaves remainder c. */
  lemma NextPlace(start: nat, w: nat, c: nat) returns (i: nat)
    requires c < w
    ensures start <= i < start + w && i % w == c
  {
    var k := start / w;
    var first := w * k;
    DivMod(start, w);
    if start <= first + c {
      i := first + c;
      DivModUnique(i, w, k, c);
    } else {
      i := first + w + c;
      OneMore(w, k);
      DivModUnique(i, w, k + 1, c);
    }
  }

  /** In any window of nq * np consecutive jobs, each pair is hit by exactly one job. */
  lemma WindowHitsOnce(start: nat, nq: nat, np: nat, q: nat, p: nat) returns (i: nat)
    requires q < nq && p < np
    ensures start <= i < start + nq * np
    ensures forall j: nat | start <= j < start + nq * np ::
              RoundRobinIndices(j, nq, np) == (q, p) <==> j == i
  {
    var w, c := nq * np, q + nq * p;
    CodeBelow(nq, np, q, p);
    i := NextPlace(start, w, c);
    forall j: nat | start <= j < start + w
      ensures RoundRobinIndices(j, nq, np) == (q, p) <==> j == i
    {
      PairIsPlaceInCycle(j, nq, np, q, p);
      if j % w == c && j < i {
        ApartByACycle(j, i, w);
      } else if j % w == c && i < j {
        ApartByACycle(i, j, w);
      }
    }
  }

  /** How many of the jobs below n get the pair (q, p). */
  function PairCount(n: nat, nq: nat, np: nat, q: nat, p: nat): nat
    requires q < nq && p < np
  {
    if n == 0 then 0
    else PairCount(n - 1, nq, np, q, p)
         + if RoundRobinIndices(n - 1, nq, np) == (q, p) then 1 else 0
  }

  lemma StepInCycle(n: nat, w: nat)
    requires w > 0
    ensures n % w + 1 < w ==> (n + 1) / w == n / w && (n + 1) % w == n % w + 1
    ensures n % w + 1 == w ==> (n + 1) / w == n / w + 1 && (n + 1) % w == 0
  {
    var k, r := n / w, n % w;
    DivMod(n, w);
    if r + 1 < w {
      DivModUnique(n + 1, w, k, r + 1);
    } else {
      OneMore(w, k);
      DivModUnique(n + 1, w, k + 1, 0);
    }
  }

  /** One job a full cycle, and one more once the last cycle has passed the pair's place. */
  lemma {:induction false} PairCountExact(n: nat, nq: nat, np: nat, q: nat, p: nat)
    requires q < nq && p < np
    ensures nq * np > 0
    ensures PairCount(n, nq, np, q, p)
         == n / (nq * np) + if n % (nq * np) > q + nq * p then 1 else 0
  {
    CodeBelow(nq, np, q, p);
    var w := nq * np;
    if n == 0 {
      DivModUnique(0, w, 0, 0);
    } else {
      PairCountExact(n - 1, nq, np, q, p);
      PairIsPlaceInCycle(n - 1, nq, np, q, p);
      StepInCycle(n - 1, w);
    }
  }

  /** No pair ever gets two jobs more than another. */
  lemma RoundRobinFair(n: nat, nq: nat, np: nat, q1: nat, p1: nat, q2: nat, p2: nat)
    requires q1 < nq && p1 < np && q2 < nq && p2 < np
    ensures PairCount(n, nq, np, q1, p1) <= PairCount(n, nq, np, q2, p2) + 1
  {
    PairCountExact(n, nq, np, q1, p1);
    PairCountExact(n, nq, np, q2, p2);
  }
}
