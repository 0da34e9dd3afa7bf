// Where a fill puts each job, and how long it makes each list.
module Placement {
  import opened Bytes
  import opened Job
  import opened Broker
  import opened Fill
  import opened RoundRobin
  import opened Producer

  /** Job i goes to the queue i mod |queues| at the priority (i div |queues|) mod
      |priorities|: its key is derived from them, and its envelope is addressed to that
      queue with that priority. */
  lemma JobIsPlaced(plan: Plan, i: nat)
    requires ValidPlan(plan)
    ensures var queue, priority := plan.queues[i % |plan.queues|],
                                   plan.priorities[i / |plan.queues| % |plan.priorities|];
            && SourceOf(plan).key(i) == QForPri(queue, priority)
            && SourceOf(plan).value(i).Message?
            && SourceOf(plan).value(i).envelope.routingKey == queue
            && SourceOf(plan).value(i).envelope.priority == priority
  {}

  // ---- how many jobs a list gets ----

  /** How many of n jobs go to the pair of queue q and priority p: one in each full cycle,
      and one more once the last cycle has passed the pair's place. */
  function FairShare(n: nat, nq: nat, np: nat, q: nat, p: nat): nat
    requires q < nq && p < np
  {
    CodeBelow(nq, np, q, p);
    n / (nq * np) + if n % (nq * np) > q + nq * p then 1 else 0
  }

  lemma FairShareGrows(n: nat, nq: nat, np: nat, q: nat, p: nat)
    requires q < nq && p < np
    ensures FairShare(n + 1, nq, np, q, p)
         == FairShare(n, nq, np, q, p) + if RoundRobinIndices(n, nq, np) == (q, p) then 1 else 0
  {
    PairCountExact(n, nq, np, q, p);
    PairCountExact(n + 1, nq, np, q, p);
  }

  lemma NoShare(nq: nat, np: nat, q: nat, p: nat)
    requires q < nq && p < np
    ensures FairShare(0, nq, np, q, p) == 0
  {
    PairCountExact(0, nq, np, q, p);
  }

  /** The pair of queue q and priority p derives this key. */
  predicate Derives(plan: Plan, key: Text, q: nat, p: nat)
    requires q < |plan.queues| && p < |plan.priorities|
  {
    QForPri(plan.queues[q], plan.priorities[p]) == key
  }

  /** A number of jobs for each pair of a queue's and a priority's index. */
  type Shares = (nat, nat) -> nat

  /** What each pair gets of n jobs. */
  function SharesOf(plan: Plan, n: nat): Shares {
    (q: nat, p: nat) =>
      if q < |plan.queues| && p < |plan.priorities|
      then FairShare(n, |plan.queues|, |plan.priorities|, q, p) else 0
  }

  /** What the queues below q put under a key at priority p. */
  function RowShare(plan: Plan, key: Text, shares: Shares, p: nat, q: nat): nat
    requires p < |plan.priorities| && q <= |plan.queues|
  {
    if q == 0 then 0
    else
      RowShare(plan, key, shares, p, q - 1)
      + if Derives(plan, key, q - 1, p) then shares(q - 1, p) else 0
  }

  /** What all queues put under a key at the priorities below p. */
  function KeyShare(plan: Plan, key: Text, shares: Shares, p: nat): nat
    requires p <= |plan.priorities|
  {
    if p == 0 then 0
    else KeyShare(plan, key, shares, p - 1) + RowShare(plan, key, shares, p - 1, |plan.queues|)
  }

  /** One more job, for the pair (q0, p0). */
  ghost predicate Grows(before: Shares, after: Shares, q0: nat, p0: nat) {
    forall q, p :: after(q, p) == before(q, p) + if q == q0 && p == p0 then 1 else 0
  }

  lemma {:induction false} RowShareGrows(
      plan: Plan, key: Text, before: Shares, after: Shares, q0: nat, p0: nat, p: nat, q: nat)
    requires q0 < |plan.queues| && p0 < |plan.priorities| && Grows(before, after, q0, p0)
    requires p < |plan.priorities| && q <= |plan.queues|
    ensures RowShare(plan, key, after, p, q)
         == RowShare(plan, key, before, p, q)
            + if p == p0 && q0 < q && Derives(plan, key, q0, p0) then 1 else 0
  {
    if q > 0 {
      RowShareGrows(plan, key, before, after, q0, p0, p, q - 1);
    }
  }

  lemma {:induction false} KeyShareGrows(
      plan: Plan, key: Text, before: Shares, after: Shares, q0: nat, p0: nat, p: nat)
    requires q0 < |plan.queues| && p0 < |plan.priorities| && Grows(before, after, q0, p0)
    requires p <= |plan.priorities|
    ensures KeyShare(plan, key, after, p)
         == KeyShare(plan, key, before, p)
            + if p0 < p && Derives(plan, key, q0, p0) then 1 else 0
  {
    if p > 0 {
      KeyShareGrows(plan, key, before, after, q0, p0, p - 1);
      RowShareGrows(plan, key, before, after, q0, p0, p - 1, |plan.queues|);
    }
  }

  ghost predicate AllNone(shares: Shares) { forall q, p :: shares(q, p) == 0 }

  lemma {:induction false} RowShareOfNone(plan: Plan, key: Text, shares: Shares, p: nat, q: nat)
    requires p < |plan.priorities| && q <= |plan.queues|
    requires AllNone(shares)
    ensures RowShare(plan, key, shares, p, q) == 0
  {
    if q > 0 {
      RowShareOfNone(plan, key, shares, p, q - 1);
    }
  }

  lemma {:induction false} KeyShareOfNone(plan: Plan, key: Text, shares: Shares, p: nat)
    requires p <= |plan.priorities| && AllNone(shares)
    ensures KeyShare(plan, key, shares, p) == 0
  {
    if p > 0 {
      var front: nat := p - 1;
      KeyShareOfNone(plan, key, shares, front);
      RowShareOfNone(plan, key, shares, front, |plan.queues|);
    }
  }

  lemma SharesOfNone(plan: Plan)
    ensures AllNone(SharesOf(plan, 0))
  {
    forall q: nat, p: nat ensures SharesOf(plan, 0)(q, p) == 0 {
      if q < |plan.queues| && p < |plan.priorities| {
        NoShare(|plan.queues|, |plan.priorities|, q, p);
      }
    }
  }

  function PairOf(plan: Plan, i: nat): (pair: (nat, nat))
    requires ValidPlan(plan)
    ensures pair.0 < |plan.queues| && pair.1 < |plan.priorities|
  {
    RoundRobinIndices(i, |plan.queues|, |plan.priorities|)
  }

  lemma SharesGrow(plan: Plan, n: nat)
    requires ValidPlan(plan)
    ensures Grows(SharesOf(plan, n), SharesOf(plan, n + 1), PairOf(plan, n).0, PairOf(plan, n).1)
  {
    forall q: nat, p: nat
      ensures SharesOf(plan, n + 1)(q, p)
           == SharesOf(plan, n)(q, p) + if (q, p) == PairOf(plan, n) then 1 else 0
    {
      if q < |plan.queues| && p < |plan.priorities| {
        FairShareGrows(n, |plan.queues|, |plan.priorities|, q, p);
      }
    }
  }

  lemma KeyFromPair(plan: Plan, key: Text, i: nat)
    requires ValidPlan(plan)
    ensures SourceOf(plan).key(i) == key
       <==> Derives(plan, key, PairOf(plan, i).0, PairOf(plan, i).1)
  {}

  /** One more job makes the list of its key, and no other, one longer. */
  lemma NextShare(plan: Plan, key: Text, n: nat, next: nat)
    requires ValidPlan(plan) && next == n + 1
    ensures KeyShare(plan, key, SharesOf(plan, next), |plan.priorities|)
         == KeyShare(plan, key, SharesOf(plan, n), |plan.priorities|)
            + if SourceOf(plan).key(n) == key then 1 else 0
  {
    SharesGrow(plan, n);
    var (q0, p0) := PairOf(plan, n);
    KeyShareGrows(plan, key, SharesOf(plan, n), SharesOf(plan, next), q0, p0, |plan.priorities|);
    KeyFromPair(plan, key, n);
  }

  /** A count that starts at none and goes up with each job of the key counts its list. */
  lemma {:induction false} CountsIndices(src: Source, key: Text, count: nat -> nat, n: nat)
    requires count(0) == 0
    requires forall i: nat, j: nat | j == i + 1 ::
               count(j) == count(i) + if src.key(i) == key then 1 else 0
    ensures |IndicesAt(src, key, n)| == count(n)
  {
    if n > 0 {
      CountsIndices(src, key, count, n - 1);
    }
  }

  lemma IndicesShare(plan: Plan, key: Text, n: nat)
    requires ValidPlan(plan)
    ensures |IndicesAt(SourceOf(plan), key, n)|
         == KeyShare(plan, key, SharesOf(plan, n), |plan.priorities|)
  {
    var count: nat -> nat := (m: nat) => KeyShare(plan, key, SharesOf(plan, m), |plan.priorities|);
    SharesOfNone(plan);
    KeyShareOfNone(plan, key, SharesOf(plan, 0), |plan.priorities|);
    forall i: nat, j: nat | j == i + 1
      ensures count(j) == count(i) + if SourceOf(plan).key(i) == key then 1 else 0
    {
      NextShare(plan, key, i, j);
    }
    CountsIndices(SourceOf(plan), key, count, n);
  }

  /** After clearing and filling, a polled list holds as many jobs as the shares of the
      pairs that derive its key come to. */
  lemma ListLength(store: Store, plan: Plan, n: nat, key: Text)
    requires ValidPlan(plan) && key in BrpopKeys(plan.queues)
    ensures |At(Stocked(store, plan, n), key)|
         == KeyShare(plan, key, SharesOf(plan, n), |plan.priorities|)
  {
    ExactStore(store, plan, n, key);
    IndicesShare(plan, key, n);
    assert |Reverse(At(Stocked(store, plan, n), key))| == |At(Stocked(store, plan, n), key)|;
  }

  // ---- fairness of the lists ----

  /** No other pair derives this key. */
  ghost predicate OnlyPair(plan: Plan, key: Text, q: nat, p: nat)
    requires q < |plan.queues| && p < |plan.priorities|
  {
    forall q1: nat, p1: nat | q1 < |plan.queues| && p1 < |plan.priorities| ::
      Derives(plan, key, q1, p1) <==> q1 == q && p1 == p
  }

  lemma {:induction false} RowOfOne(
      plan: Plan, key: Text, shares: Shares, q: nat, p: nat, p1: nat, below: nat)
    requires q < |plan.queues| && p < |plan.priorities| && OnlyPair(plan, key, q, p)
    requires p1 < |plan.priorities| && below <= |plan.queues|
    ensures RowShare(plan, key, shares, p1, below)
         == if p1 == p && q < below then shares(q, p) else 0
  {
    if below > 0 {
      RowOfOne(plan, key, shares, q, p, p1, below - 1);
      assert Derives(plan, key, below - 1, p1) <==> below - 1 == q && p1 == p;
    }
  }

  lemma {:induction false} ShareOfOne(
      plan: Plan, key: Text, shares: Shares, q: nat, p: nat, below: nat)
    requires q < |plan.queues| && p < |plan.priorities| && OnlyPair(plan, key, q, p)
    requires below <= |plan.priorities|
    ensures KeyShare(plan, key, shares, below) == if p < below then shares(q, p) else 0
  {
    if below > 0 {
      ShareOfOne(plan, key, shares, q, p, below - 1);
      RowOfOne(plan, key, shares, q, p, below - 1, |plan.queues|);
    }
  }

  lemma OneShare(plan: Plan, key: Text, n: nat, q: nat, p: nat)
    requires q < |plan.queues| && p < |plan.priorities| && OnlyPair(plan, key, q, p)
    ensures KeyShare(plan, key, SharesOf(plan, n), |plan.priorities|)
         == PairCount(n, |plan.queues|, |plan.priorities|, q, p)
  {
    ShareOfOne(plan, key, SharesOf(plan, n), q, p, |plan.priorities|);
    PairCountExact(n, |plan.queues|, |plan.priorities|, q, p);
  }

  lemma OnlyPairIsPolled(plan: Plan, key: Text, q: nat, p: nat)
    requires q < |plan.queues| && p < |plan.priorities| && OnlyPair(plan, key, q, p)
    ensures key in BrpopKeys(plan.queues)
  {
    assert Derives(plan, key, q, p);
    NoStrandedJob(plan.queues, q, plan.priorities[p]);
  }

  /** Two lists whose keys come from one pair each never differ by more than one job,
      whatever the numbers of queues and priorities have in common. */
  lemma ListsAreFair(store: Store, plan: Plan, n: nat,
                     key1: Text, q1: nat, p1: nat, key2: Text, q2: nat, p2: nat)
    requires ValidPlan(plan)
    requires q1 < |plan.queues| && p1 < |plan.priorities| && OnlyPair(plan, key1, q1, p1)
    requires q2 < |plan.queues| && p2 < |plan.priorities| && OnlyPair(plan, key2, q2, p2)
    ensures |At(Stocked(store, plan, n), key1)| <= |At(Stocked(store, plan, n), key2)| + 1
  {
    OnlyPairIsPolled(plan, key1, q1, p1);
    OnlyPairIsPolled(plan, key2, q2, p2);
    ListLength(store, plan, n, key1);
    ListLength(store, plan, n, key2);
    OneShare(plan, key1, n, q1, p1);
    OneShare(plan, key2, n, q2, p2);
    RoundRobinFair(n, |plan.queues|, |plan.priorities|, q1, p1, q2, p2);
  }
}
