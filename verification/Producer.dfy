// src/producer.rs: clearing the queues and filling them with jobs.
module Producer {
  import opened Bytes
  import opened Job
  import opened Broker
  import opened Fill
  import opened RoundRobin

  const BATCH_SIZE: nat := 1000

  /** What a fill distributes over; `clock` is the time at which job i is built. */
  datatype Plan = Plan(queues: seq<Text>, priorities: seq<u8>, clock: nat -> u64)

  predicate ValidPlan(plan: Plan) { plan.queues != [] && plan.priorities != [] }

  function QueueOf(plan: Plan, i: nat): (q: nat)
    requires ValidPlan(plan)
    ensures q < |plan.queues|
  {
    RoundRobinIndices(i, |plan.queues|, |plan.priorities|).0
  }

  function PriorityOf(plan: Plan, i: nat): u8
    requires ValidPlan(plan)
  {
    plan.priorities[RoundRobinIndices(i, |plan.queues|, |plan.priorities|).1]
  }

  function KeyOf(plan: Plan, i: nat): Text
    requires ValidPlan(plan)
  {
    QForPri(plan.queues[QueueOf(plan, i)], PriorityOf(plan, i))
  }

  function JobOf(plan: Plan, i: nat): Payload
    requires ValidPlan(plan)
  {
    Message(NewEnvelope(plan.queues[QueueOf(plan, i)], PriorityOf(plan, i), i, plan.clock(i)))
  }

  /** The key and the payload the fill computes for each job. */
  function SourceOf(plan: Plan): Source
    requires ValidPlan(plan)
  {
    Source((i: nat) => KeyOf(plan, i), (i: nat) => JobOf(plan, i))
  }

  /** The pipeline that pushes jobs idx, idx + 1, ..., one command a job. */
  function Batch(src: Source, idx: nat, size: nat): seq<Push> {
    if size == 0 then []
    else Batch(src, idx, size - 1) + [Push(src.key(idx + size - 1), src.value(idx + size - 1))]
  }

  lemma PushOneMore(store: Store, pipe: seq<Push>, key: Text, value: Payload)
    ensures PushAll(store, pipe + [Push(key, value)]) == LPush(PushAll(store, pipe), key, value)
  {
    assert (pipe + [Push(key, value)])[..|pipe|] == pipe;
  }

  lemma BatchNext(src: Source, idx: nat, size: nat, next: nat)
    requires next == size + 1
    ensures Batch(src, idx, next)
         == Batch(src, idx, size) + [Push(src.key(idx + size), src.value(idx + size))]
  {}

  /** One more push in a pipeline, and one more job in a fill, do the same. */
  lemma PushNext(before: Store, after: Store, src: Source, idx: nat, size: nat, next: nat)
    requires next == size + 1 && PushAll(before, Batch(src, idx, size)) == after
    ensures PushAll(before, Batch(src, idx, next))
         == LPush(after, src.key(idx + size), src.value(idx + size))
  {
    var i := idx + size;
    BatchNext(src, idx, size, next);
    PushOneMore(before, Batch(src, idx, size), src.key(i), src.value(i));
  }

  lemma FillNext(store: Store, after: Store, src: Source, idx: nat, size: nat, next: nat)
    requires next == size + 1 && Filled(store, src, idx + size) == after
    ensures Filled(store, src, idx + next)
         == LPush(after, src.key(idx + size), src.value(idx + size))
  {}

  lemma {:induction false} BatchFills(store: Store, before: Store, src: Source, idx: nat, size: nat)
    requires before == Filled(store, src, idx)
    ensures PushAll(before, Batch(src, idx, size)) == Filled(store, src, idx + size)
  {
    if size > 0 {
      var m: nat := size - 1;
      var after := Filled(store, src, idx + m);
      BatchFills(store, before, src, idx, m);
      PushNext(before, after, src, idx, m, size);
      FillNext(store, after, src, idx, m, size);
    }
  }

  /** The inner loop: one pipeline of `batch` pushes, from job idx on. */
  method BuildPipe(src: Source, idx: nat, batch: nat) returns (pipe: seq<Push>)
    ensures pipe == Batch(src, idx, batch)
  {
    pipe := [];
    for j := 0 to batch
      invariant pipe == Batch(src, idx, j)
    {
      var i := idx + j;
      pipe := pipe + [Push(src.key(i), src.value(i))];
    }
  }

  /** One turn of the outer loop. */
  method PushBatch(redis: Redis, src: Source, idx: nat, batch: nat, ghost start: Store)
    requires redis.Valid() && redis.lists == Filled(start, src, idx)
    modifies redis
    ensures redis.Valid() && redis.lists == Filled(start, src, idx + batch)
  {
    var pipe := BuildPipe(src, idx, batch);
    BatchFills(start, redis.lists, src, idx, batch);
    redis.Execute(pipe);
  }

  /** Batches of a thousand pipelined pushes come to the same store as one push at a time. */
  method BulkEnqueue(redis: Redis, src: Source, nJobs: nat)
    requires redis.Valid()
    modifies redis
    ensures redis.Valid() && redis.lists == Filled(old(redis.lists), src, nJobs)
  {
    ghost var start := redis.lists;
    var idx: nat, remaining: nat := 0, nJobs;
    while remaining > 0
      invariant redis.Valid() && idx + remaining == nJobs
      invariant redis.lists == Filled(start, src, idx)
    {
      var batch := if remaining < BATCH_SIZE then remaining else BATCH_SIZE;
      PushBatch(redis, src, idx, batch, start);
      idx := idx + batch;
      remaining := remaining - batch;
    }
  }

  /** Delete every key the queues expand to, and nothing else. */
  method ClearQueue(redis: Redis, queues: seq<Text>)
    requires redis.Valid()
    modifies redis
    ensures redis.Valid() && redis.lists == Delete(old(redis.lists), BrpopKeys(queues))
  {
    var keys := BrpopKeys(queues);
    for i := 0 to |keys|
      invariant redis.Valid() && redis.lists == Delete(old(redis.lists), keys[..i])
    {
      redis.Del(keys[i]);
      DeleteOneMore(old(redis.lists), keys, i);
    }
    assert keys[..|keys|] == keys;
  }

  // ---- what a trial starts from ----

  /** Polled keys emptied, then n jobs pushed. */
  function Stocked(store: Store, plan: Plan, n: nat): Store
    requires ValidPlan(plan)
  {
    Filled(Delete(store, BrpopKeys(plan.queues)), SourceOf(plan), n)
  }

  /** Where job i's key stands in the polled list: step first, then queue. */
  function Position(plan: Plan, i: nat): nat
    requires ValidPlan(plan)
  {
    StepIndex(PriorityOf(plan, i)) * |plan.queues| + QueueOf(plan, i)
  }

  function Positions(plan: Plan): nat -> nat
    requires ValidPlan(plan)
  {
    (i: nat) => Position(plan, i)
  }

  lemma PositionLocates(plan: Plan, i: nat)
    requires ValidPlan(plan)
    ensures Position(plan, i) < |BrpopKeys(plan.queues)|
    ensures BrpopKeys(plan.queues)[Position(plan, i)] == KeyOf(plan, i)
  {
    NoStrandedJob(plan.queues, QueueOf(plan, i), PriorityOf(plan, i));
  }

  lemma PositionsLocate(plan: Plan)
    requires ValidPlan(plan)
    ensures Locates(SourceOf(plan), BrpopKeys(plan.queues), Positions(plan))
  {
    forall i: nat
      ensures Position(plan, i) < |BrpopKeys(plan.queues)|
      ensures BrpopKeys(plan.queues)[Position(plan, i)] == KeyOf(plan, i)
    {
      PositionLocates(plan, i);
    }
  }

  lemma PolledKey(store: Store, src: Source, n: nat, key: Text)
    requires At(store, key) == []
    ensures Reverse(At(Filled(store, src, n), key)) == Jobs(src, IndicesAt(src, key, n))
  {
    FilledAt(store, src, key, n);
    var jobs := Jobs(src, IndicesAt(src, key, n));
    assert Reverse(jobs) + [] == Reverse(jobs);
    ReverseTwice(jobs);
  }

  lemma KeyOfIsPolled(plan: Plan, i: nat)
    requires ValidPlan(plan)
    ensures SourceOf(plan).key(i) in BrpopKeys(plan.queues)
  {
    NoStrandedJob(plan.queues, QueueOf(plan, i), PriorityOf(plan, i));
  }

  /** Clearing and filling leaves under every polled key, read from the right, exactly
      the jobs that belong there in increasing order, and every other key as it was. */
  lemma ExactStore(store: Store, plan: Plan, n: nat, key: Text)
    requires ValidPlan(plan)
    ensures key in BrpopKeys(plan.queues) ==>
              Reverse(At(Stocked(store, plan, n), key))
              == Jobs(SourceOf(plan), IndicesAt(SourceOf(plan), key, n))
    ensures key !in BrpopKeys(plan.queues) ==>
              (key in Stocked(store, plan, n) <==> key in store)
              && At(Stocked(store, plan, n), key) == At(store, key)
  {
    var src, keys := SourceOf(plan), BrpopKeys(plan.queues);
    var cleared := Delete(store, keys);
    if key in keys {
      PolledKey(cleared, src, n, key);
    } else {
      forall i: nat ensures src.key(i) != key { KeyOfIsPolled(plan, i); }
      FilledElsewhere(cleared, src, key, n);
    }
  }

  function PopOrder(plan: Plan, n: nat): seq<nat>
    requires ValidPlan(plan)
  {
    OrderOver(SourceOf(plan), BrpopKeys(plan.queues), n)
  }

  /** The pop order lists each of the n jobs once, sorted by (step, queue, index). */
  lemma PopOrderSorted(plan: Plan, n: nat)
    requires ValidPlan(plan) && Distinct(BrpopKeys(plan.queues))
    ensures |PopOrder(plan, n)| == n
    ensures Sorted(Positions(plan), PopOrder(plan, n))
    ensures forall i: nat :: i in PopOrder(plan, n) <==> i < n
  {
    var keys := BrpopKeys(plan.queues);
    assert keys[0..] == keys;
    PositionsLocate(plan);
    OrderMembers(SourceOf(plan), keys, Positions(plan), 0, n);
    OrderLength(SourceOf(plan), keys, Positions(plan), n);
  }
}
