// src/main.rs: the loop over worker levels, and what holds of every trial it measures.
module Bench {
  import opened Wrappers
  import opened Bytes
  import opened Job
  import opened Broker
  import opened Fill
  import opened Producer
  import opened Protocol
  import opened Tally
  import opened Readings
  import opened Invariants
  import opened Schedules
  import opened Theorems
  import opened Endings
  import opened Running

  /** The options that shape trials, within the ranges the command line admits. */
  datatype Settings = Settings(
    base: Text, numQueues: nat, priorities: seq<u8>,
    jobs: nat, warmupJobs: nat, cap: nat, allowFlushDb: bool)

  /** One minute: the least bound a histogram is given. */
  const MIN_HIST_MAX_US: nat := 60_000_000

  predicate ValidSettings(o: Settings) {
    o.jobs > 0 && o.numQueues > 0 && o.priorities != [] && o.cap >= MIN_HIST_MAX_US
  }

  /** One level of concurrency, the instants at which its jobs are built, and the
      scheduler's choices in its two trials. */
  datatype Level = Level(
    workers: nat, warmupClock: nat -> u64, clock: nat -> u64,
    warmupSchedule: seq<Action>, schedule: seq<Action>)

  function PlanOf(o: Settings, clock: nat -> u64): Plan {
    Plan(MakeQueueNames(o.base, o.numQueues), o.priorities, clock)
  }

  function ConfigOf(o: Settings, jobs: nat, workers: nat): Config {
    Config(jobs, workers, BrpopKeys(MakeQueueNames(o.base, o.numQueues)), o.cap, Marker)
  }

  lemma ConfigValid(o: Settings, jobs: nat, workers: nat)
    requires ValidSettings(o) && jobs > 0 && workers > 0
    ensures ValidConfig(ConfigOf(o, jobs, workers))
  {
    KeysDistinct(o.base, o.numQueues);
  }

  // ---- one trial on the store ----

  ghost predicate Tidy(store: Store) { forall k | k in store :: store[k] != [] }

  lemma ApplyTidy(c: Config, s: State, a: Action)
    requires Enabled(c, s, a) && Tidy(s.sh.store)
    ensures Tidy(Apply(c, s, a).sh.store)
  {}

  /** The keys that are not polled are as they were. */
  ghost predicate OthersKept(keys: seq<Text>, before: Store, after: Store) {
    forall k | k !in keys :: (k in after <==> k in before) && At(after, k) == At(before, k)
  }

  lemma ApplyKeepsOthers(c: Config, s: State, a: Action)
    requires Enabled(c, s, a)
    ensures OthersKept(c.keys, s.sh.store, Apply(c, s, a).sh.store)
  {
    if a.Work? && a.e.ServerPop? {
      assert c.keys[FirstReady(s.sh.store, c.keys)] in c.keys;
    }
  }

  /** Run a trial as the schedule has it, until it is over or the schedule is. */
  method RunTrial(redis: Redis, c: Config, schedule: seq<Action>) returns (s: State)
    requires redis.Valid()
    modifies redis
    ensures redis.Valid() && redis.lists == s.sh.store
    ensures Executes(c, Init(old(redis.lists)), schedule, s)
    ensures s == Play(c, Init(old(redis.lists)), schedule)
    ensures Reachable(c, old(redis.lists), s)
    ensures OthersKept(c.keys, old(redis.lists), redis.lists)
  {
    s := Init(redis.lists);
    InitReachable(c, redis.lists);
    PlayExecutes(c, s, schedule);
    var i := 0;
    while i < |schedule| && !Over(s) && Enabled(c, s, schedule[i])
      invariant i <= |schedule| && redis.lists == old(redis.lists) && Tidy(s.sh.store)
      invariant Play(c, s, schedule[i..]) == Play(c, Init(old(redis.lists)), schedule)
      invariant Reachable(c, old(redis.lists), s)
      invariant OthersKept(c.keys, old(redis.lists), s.sh.store)
    {
      assert schedule[i..][0] == schedule[i] && schedule[i..][1..] == schedule[i + 1..];
      ghost var _ := Reach(c, old(redis.lists), s, schedule[i]);
      ApplyTidy(c, s, schedule[i]);
      ApplyKeepsOthers(c, s, schedule[i]);
      s := Apply(c, s, schedule[i]);
      i := i + 1;
    }
    redis.lists := s.sh.store;
  }

  // ---- the loop over levels ----

  /** Everything under the polled keys is the plan's first n jobs, and theirs only. */
  ghost predicate HoldsExactly(store: Store, plan: Plan, n: nat)
    requires ValidPlan(plan)
  {
    forall k | k in BrpopKeys(plan.queues) ::
      Reverse(At(store, k)) == Jobs(SourceOf(plan), IndicesAt(SourceOf(plan), k, n))
  }

  /** What FLUSHDB leaves, or the store as it is. */
  function Flushed(store: Store, flush: bool): Store { if flush then map[] else store }

  /** Clear, by DEL or FLUSHDB, and fill. */
  method Prepare(redis: Redis, plan: Plan, n: nat, flush: bool)
    requires redis.Valid() && ValidPlan(plan)
    modifies redis
    ensures redis.Valid() && HoldsExactly(redis.lists, plan, n)
    ensures redis.lists == Stocked(Flushed(old(redis.lists), flush), plan, n)
    ensures flush ==> forall k | k in redis.lists :: k in BrpopKeys(plan.queues)
    ensures !flush ==> OthersKept(BrpopKeys(plan.queues), old(redis.lists), redis.lists)
  {
    ghost var before := Flushed(redis.lists, flush);
    if flush {
      redis.FlushDb();
      assert redis.lists == Delete(map[], BrpopKeys(plan.queues));
    } else {
      ClearQueue(redis, plan.queues);
    }
    BulkEnqueue(redis, SourceOf(plan), n);
    StockedHolds(before, plan, n);
  }

  lemma StockedHolds(before: Store, plan: Plan, n: nat)
    requires ValidPlan(plan)
    ensures HoldsExactly(Stocked(before, plan, n), plan, n)
    ensures OthersKept(BrpopKeys(plan.queues), before, Stocked(before, plan, n))
  {
    forall k ensures k in BrpopKeys(plan.queues) ==>
        Reverse(At(Stocked(before, plan, n), k)) == Jobs(SourceOf(plan), IndicesAt(SourceOf(plan), k, n))
      ensures k !in BrpopKeys(plan.queues) ==>
        (k in Stocked(before, plan, n) <==> k in before)
        && At(Stocked(before, plan, n), k) == At(before, k)
    {
      ExactStore(before, plan, n, k);
    }
  }

  datatype Trial = Trial(plan: Plan, config: Config, start: Store, end: State)

  /** A finished trial over the configured queues and jobs that started from polled lists
      holding exactly its own jobs. */
  ghost predicate Measured(o: Settings, t: Trial) {
    && t.plan == PlanOf(o, t.plan.clock) && ValidPlan(t.plan)
    && t.config.workers > 0 && t.config == ConfigOf(o, o.jobs, t.config.workers)
    && HoldsExactly(t.start, t.plan, o.jobs)
    && Reachable(t.config, t.start, t.end) && t.end.orch.phase == Finished
  }

  // ---- what a level comes to ----

  /** The store a trial starts from. */
  function StartOf(o: Settings, clock: nat -> u64, n: nat, store: Store): Store
    requires ValidSettings(o)
  {
    Stocked(Flushed(store, o.allowFlushDb), PlanOf(o, clock), n)
  }

  /** How a level's warmup ends. */
  function WarmupEnd(o: Settings, level: Level, store: Store): State
    requires ValidSettings(o)
  {
    Play(ConfigOf(o, o.warmupJobs, level.workers),
         Init(StartOf(o, level.warmupClock, o.warmupJobs, store)), level.warmupSchedule)
  }

  /** The store before the measured trial is prepared. */
  function AfterWarmup(o: Settings, level: Level, store: Store): Store
    requires ValidSettings(o)
  {
    if o.warmupJobs > 0 then WarmupEnd(o, level, store).sh.store else store
  }

  function TrialStart(o: Settings, level: Level, store: Store): Store
    requires ValidSettings(o)
  {
    StartOf(o, level.clock, o.jobs, AfterWarmup(o, level, store))
  }

  function TrialEnd(o: Settings, level: Level, store: Store): State
    requires ValidSettings(o)
  {
    Play(ConfigOf(o, o.jobs, level.workers), Init(TrialStart(o, level, store)), level.schedule)
  }

  /** The schedules bring the warmup, if there is one, and the measured trial to reports. */
  ghost predicate LevelRuns(o: Settings, level: Level, store: Store)
    requires ValidSettings(o)
  {
    && (o.warmupJobs > 0 ==>
          RunsToReport(ConfigOf(o, o.warmupJobs, level.workers),
                       Init(StartOf(o, level.warmupClock, o.warmupJobs, store)),
                       level.warmupSchedule))
    && RunsToReport(ConfigOf(o, o.jobs, level.workers), Init(TrialStart(o, level, store)),
                    level.schedule)
  }

  /** The trial is the level's: its queues, priorities, clock, workers and target, its
      start, and an execution of its schedule. */
  ghost predicate IsTrialOf(o: Settings, level: Level, store: Store, t: Trial)
    requires ValidSettings(o)
  {
    && t.plan == Plan(MakeQueueNames(o.base, o.numQueues), o.priorities, level.clock)
    && t.config == Config(o.jobs, level.workers, BrpopKeys(t.plan.queues), o.cap, Marker)
    && t.start == TrialStart(o, level, store)
    && Executes(t.config, Init(t.start), level.schedule, t.end)
  }

  /** The store a level leaves behind. */
  function AfterLevel(o: Settings, level: Level, store: Store): Store
    requires ValidSettings(o)
  {
    if o.warmupJobs > 0 && WarmupEnd(o, level, store).orch.phase != Finished then
      WarmupEnd(o, level, store).sh.store
    else TrialEnd(o, level, store).sh.store
  }

  /** Both trials of a level end in reports exactly when their schedules reach them. */
  lemma LevelReports(o: Settings, level: Level, store: Store)
    requires ValidSettings(o)
    ensures LevelRuns(o, level, store)
       <==> (o.warmupJobs > 0 ==> WarmupEnd(o, level, store).orch.phase == Finished)
            && TrialEnd(o, level, store).orch.phase == Finished
  {
    PlayReports(ConfigOf(o, o.warmupJobs, level.workers),
                Init(StartOf(o, level.warmupClock, o.warmupJobs, store)), level.warmupSchedule);
    PlayReports(ConfigOf(o, o.jobs, level.workers), Init(TrialStart(o, level, store)),
                level.schedule);
  }

  /** Without FLUSHDB, the keys that are not polled are as they were. */
  ghost predicate ForeignKept(o: Settings, before: Store, after: Store) {
    !o.allowFlushDb ==> OthersKept(BrpopKeys(MakeQueueNames(o.base, o.numQueues)), before, after)
  }

  lemma StillKept(o: Settings, store: Store, before: Store, after: Store)
    requires ForeignKept(o, store, before) && ForeignKept(o, before, after)
    ensures ForeignKept(o, store, after)
  {}

  /** The warmup trial of a level; false when it does not come to a report. */
  method RunWarmup(redis: Redis, o: Settings, level: Level) returns (ok: bool)
    requires redis.Valid() && ValidSettings(o) && level.workers > 0
    modifies redis
    ensures redis.Valid() && redis.lists == AfterWarmup(o, level, old(redis.lists))
    ensures ok <==>
              (o.warmupJobs > 0 ==> WarmupEnd(o, level, old(redis.lists)).orch.phase == Finished)
    ensures ForeignKept(o, old(redis.lists), redis.lists)
  {
    ok := true;
    if o.warmupJobs > 0 {
      Prepare(redis, PlanOf(o, level.warmupClock), o.warmupJobs, o.allowFlushDb);
      var warm := RunTrial(redis, ConfigOf(o, o.warmupJobs, level.workers), level.warmupSchedule);
      ok := warm.orch.phase == Finished;
    }
  }

  /** The loop body: a warmup trial if asked for, then the measured one. */
  method RunLevel(redis: Redis, o: Settings, level: Level) returns (trial: Option<Trial>)
    requires redis.Valid() && ValidSettings(o) && level.workers > 0
    modifies redis
    ensures redis.Valid() && redis.lists == AfterLevel(o, level, old(redis.lists))
    ensures trial.Some? <==> LevelRuns(o, level, old(redis.lists))
    ensures trial.Some? ==>
              Measured(o, trial.value) && IsTrialOf(o, level, old(redis.lists), trial.value)
    ensures ForeignKept(o, old(redis.lists), redis.lists)
  {
    LevelReports(o, level, redis.lists);
    var ok := RunWarmup(redis, o, level);
    if !ok {
      return None;
    }
    var plan, config := PlanOf(o, level.clock), ConfigOf(o, o.jobs, level.workers);
    Prepare(redis, plan, o.jobs, o.allowFlushDb);
    var start := redis.lists;
    var end := RunTrial(redis, config, level.schedule);
    trial := if end.orch.phase == Finished then Some(Trial(plan, config, start, end)) else None;
  }

  /** The store before level i. */
  function StoreBefore(o: Settings, levels: seq<Level>, store: Store, i: nat): Store
    requires ValidSettings(o) && i <= |levels|
  {
    if i == 0 then store
    else AfterLevel(o, levels[i - 1], StoreBefore(o, levels, store, i - 1))
  }

  /** `t` is what level i has to report. */
  ghost predicate Reports(o: Settings, levels: seq<Level>, store: Store, i: nat, t: Trial)
    requires ValidSettings(o) && i < |levels|
  {
    Measured(o, t) && IsTrialOf(o, levels[i], StoreBefore(o, levels, store, i), t)
  }

  /** The results are the trials of the first levels, one each, in order. */
  ghost predicate AreTrialsOf(o: Settings, levels: seq<Level>, store: Store, results: seq<Trial>)
    requires ValidSettings(o) && |results| <= |levels|
  {
    results == []
    || (AreTrialsOf(o, levels, store, results[..|results| - 1])
        && Reports(o, levels, store, |results| - 1, results[|results| - 1]))
  }

  lemma OneMoreTrial(
      o: Settings, levels: seq<Level>, store: Store, results: seq<Trial>, t: Trial)
    requires ValidSettings(o) && |results| < |levels| && AreTrialsOf(o, levels, store, results)
    requires Reports(o, levels, store, |results|, t)
    ensures AreTrialsOf(o, levels, store, results + [t])
  {
    assert (results + [t])[..|results|] == results;
  }

  /** Each of the results is its level's. */
  lemma {:induction false} TrialAt(
      o: Settings, levels: seq<Level>, store: Store, results: seq<Trial>, i: nat)
    requires ValidSettings(o) && i < |results| <= |levels| && AreTrialsOf(o, levels, store, results)
    ensures Reports(o, levels, store, i, results[i])
  {
    if i < |results| - 1 {
      TrialAt(o, levels, store, results[..|results| - 1], i);
    }
  }

  /** Level i, run after those before it, comes to its reports. */
  ghost predicate RunsAt(o: Settings, levels: seq<Level>, store: Store, i: nat)
    requires ValidSettings(o) && i < |levels|
  {
    LevelRuns(o, levels[i], StoreBefore(o, levels, store, i))
  }

  ghost predicate LevelsRun(o: Settings, levels: seq<Level>, store: Store, n: nat)
    requires ValidSettings(o) && n <= |levels|
  {
    forall i {:trigger RunsAt(o, levels, store, i)} | 0 <= i < n :: RunsAt(o, levels, store, i)
  }

  lemma OneMoreRuns(o: Settings, levels: seq<Level>, store: Store, n: nat)
    requires ValidSettings(o) && n < |levels|
    requires LevelsRun(o, levels, store, n) && RunsAt(o, levels, store, n)
    ensures LevelsRun(o, levels, store, n + 1)
  {}

  /** The levels reported have run, and the results are theirs. */
  ghost predicate Progress(o: Settings, levels: seq<Level>, store: Store, results: seq<Trial>)
    requires ValidSettings(o)
  {
    && |results| <= |levels| && AreTrialsOf(o, levels, store, results)
    && LevelsRun(o, levels, store, |results|)
  }

  lemma OneMoreLevel(
      o: Settings, levels: seq<Level>, store: Store, results: seq<Trial>, t: Trial)
    requires ValidSettings(o) && Progress(o, levels, store, results) && |results| < |levels|
    requires RunsAt(o, levels, store, |results|) && Reports(o, levels, store, |results|, t)
    ensures Progress(o, levels, store, results + [t])
  {
    OneMoreTrial(o, levels, store, results, t);
    OneMoreRuns(o, levels, store, |results|);
  }

  predicate SomeTimeout(results: seq<Trial>) {
    exists i | 0 <= i < |results| :: TimedOut(results[i].end)
  }

  lemma OneMoreTimeout(results: seq<Trial>, t: Trial)
    ensures SomeTimeout(results + [t]) <==> SomeTimeout(results) || TimedOut(t.end)
  {
    var more := results + [t];
    assert more[|results|] == t;
    assert forall i | 0 <= i < |results| :: more[i] == results[i];
  }

  /** One turn of the loop: the level after those whose results are in. */
  method RunNext(redis: Redis, o: Settings, levels: seq<Level>, i: nat, ghost store: Store)
    returns (trial: Option<Trial>)
    requires redis.Valid() && ValidSettings(o) && i < |levels| && levels[i].workers > 0
    requires redis.lists == StoreBefore(o, levels, store, i) && ForeignKept(o, store, redis.lists)
    modifies redis
    ensures redis.Valid() && redis.lists == StoreBefore(o, levels, store, i + 1)
    ensures trial.Some? <==> RunsAt(o, levels, store, i)
    ensures trial.Some? ==> Reports(o, levels, store, i, trial.value)
    ensures ForeignKept(o, store, redis.lists)
  {
    ghost var before := redis.lists;
    trial := RunLevel(redis, o, levels[i]);
    StillKept(o, store, before, redis.lists);
  }

  /** The run so far: the levels reported, their timeouts, and the store they leave. */
  ghost predicate SoFar(o: Settings, levels: seq<Level>, store: Store,
                        results: seq<Trial>, anyTimeout: bool, lists: Store)
    requires ValidSettings(o)
  {
    && Progress(o, levels, store, results)
    && (anyTimeout <==> SomeTimeout(results))
    && lists == StoreBefore(o, levels, store, |results|)
    && ForeignKept(o, store, lists)
  }

  lemma SoFarNext(o: Settings, levels: seq<Level>, store: Store, results: seq<Trial>,
                  anyTimeout: bool, lists: Store, t: Trial, next: Store)
    requires ValidSettings(o) && SoFar(o, levels, store, results, anyTimeout, lists)
    requires |results| < |levels|
    requires RunsAt(o, levels, store, |results|) && Reports(o, levels, store, |results|, t)
    requires next == StoreBefore(o, levels, store, |results| + 1) && ForeignKept(o, store, next)
    ensures SoFar(o, levels, store, results + [t], anyTimeout || TimedOut(t.end), next)
  {
    OneMoreLevel(o, levels, store, results, t);
    OneMoreTimeout(results, t);
  }

  /** The results are the trials of the levels up to the first that does not come to a
      report, or of all of them; the exit code tells whether one of them timed out. */
  ghost predicate Tells(o: Settings, levels: seq<Level>, store: Store,
                        results: seq<Trial>, completed: bool, anyTimeout: bool)
    requires ValidSettings(o)
  {
    && Progress(o, levels, store, results)
    && (completed <==> |results| == |levels|)
    && (completed <==> LevelsRun(o, levels, store, |levels|))
    && (!completed ==> !RunsAt(o, levels, store, |results|))
    && (anyTimeout <==> SomeTimeout(results))
  }

  lemma StopTells(o: Settings, levels: seq<Level>, store: Store,
                  results: seq<Trial>, completed: bool, anyTimeout: bool)
    requires ValidSettings(o) && Progress(o, levels, store, results)
    requires anyTimeout <==> SomeTimeout(results)
    requires if completed then |results| == |levels|
             else |results| < |levels| && !RunsAt(o, levels, store, |results|)
    ensures Tells(o, levels, store, results, completed, anyTimeout)
  {}

  /** Whatever the schedules do, warmup or not, every measured trial starts clean and is an
      execution of its level's schedule; the run goes on exactly as long as the levels come
      to reports; the exit code tells whether a trial timed out; and without FLUSHDB no
      other key changes. */
  method RunLevels(redis: Redis, o: Settings, levels: seq<Level>)
    returns (results: seq<Trial>, completed: bool, anyTimeout: bool)
    requires redis.Valid() && ValidSettings(o)
    requires forall i | 0 <= i < |levels| :: levels[i].workers > 0
    modifies redis
    ensures redis.Valid() && ForeignKept(o, old(redis.lists), redis.lists)
    ensures Tells(o, levels, old(redis.lists), results, completed, anyTimeout)
  {
    ghost var store := redis.lists;
    results, completed, anyTimeout := [], false, false;
    for i := 0 to |levels|
      invariant redis.Valid() && |results| == i
      invariant SoFar(o, levels, store, results, anyTimeout, redis.lists)
    {
      ghost var before := redis.lists;
      var trial := RunNext(redis, o, levels, i, store);
      if trial.None? {
        StopTells(o, levels, store, results, false, anyTimeout);
        return;
      }
      SoFarNext(o, levels, store, results, anyTimeout, before, trial.value, redis.lists);
      results := results + [trial.value];
      anyTimeout := anyTimeout || TimedOut(trial.value.end);
    }
    StopTells(o, levels, store, results, true, anyTimeout);
    completed := true;
  }

  // ---- what holds of every measured trial, at every moment ----

  lemma DrainOfExact(store: Store, plan: Plan, n: nat)
    requires ValidPlan(plan) && HoldsExactly(store, plan, n)
    ensures Drain(store, BrpopKeys(plan.queues)) == Jobs(SourceOf(plan), PopOrder(plan, n))
  {
    DrainOver(store, SourceOf(plan), n, BrpopKeys(plan.queues));
  }

  lemma JobsPrefix(src: Source, order: seq<nat>, got: seq<Payload>)
    requires got <= Jobs(src, order)
    ensures |got| <= |order| && got == Jobs(src, order[..|got|])
  {
    assert got == Jobs(src, order)[..|got|];
  }

  /** For any number of workers and any interleaving, the jobs popped so far are the first
      of all jobs sorted by priority step, then queue, then index. */
  lemma SchedulerIndependentOrder(o: Settings, t: Trial, s: State)
    requires ValidSettings(o) && Measured(o, t) && Reachable(t.config, t.start, s)
    ensures var order := PopOrder(t.plan, o.jobs);
            && |s.log.popped| <= o.jobs == |order|
            && s.log.popped == Jobs(SourceOf(t.plan), order[..|s.log.popped|])
            && Sorted(Positions(t.plan), order)
            && (forall i: nat :: i in order <==> i < o.jobs)
  {
    ConfigValid(o, o.jobs, t.config.workers);
    PopsFollowOneOrder(t.config, t.start, s);
    DrainOfExact(t.start, t.plan, o.jobs);
    JobsPrefix(SourceOf(t.plan), PopOrder(t.plan, o.jobs), s.log.popped);
    PopOrderSorted(t.plan, o.jobs);
  }

  /** With its own jobs only, a trial never counts more than it enqueued. */
  lemma NeverMoreThanEnqueued(o: Settings, t: Trial, s: State)
    requires ValidSettings(o) && Measured(o, t) && Reachable(t.config, t.start, s)
    ensures |Drain(t.start, t.config.keys)| == o.jobs
    ensures s.sh.completed <= o.jobs
  {
    ConfigValid(o, o.jobs, t.config.workers);
    DrainOfExact(t.start, t.plan, o.jobs);
    PopOrderSorted(t.plan, o.jobs);
    CountedOnce(t.config, t.start, s);
  }

  /** A trial not reported as timed out counted exactly the jobs it enqueued: none is left
      in a list, none in a worker's hands and none was lost. */
  lemma SuccessIsExact(o: Settings, t: Trial)
    requires ValidSettings(o) && Measured(o, t) && !TimedOut(t.end)
    ensures t.end.orch.report.total == o.jobs
    ensures Drain(t.end.sh.store, t.config.keys) == [] && t.end.log.lost == []
    ensures multiset(t.end.log.finished) == multiset(Drain(t.start, t.config.keys))
  {
    var s := t.end;
    ConfigValid(o, o.jobs, t.config.workers);
    NeverMoreThanEnqueued(o, t, s);
    NotTimedOutIsComplete(t.config, t.start, s);
    ReportIsFinal(t.config, t.start, s);
    CountedOnce(t.config, t.start, s);
    ExactlyOnce(t.config, t.start, s);
    HeldSize(s.ws);
    assert Held(s.ws) == multiset{};
  }

  // ---- what each sample measures ----

  /** Job i of a fill decodes to the instant at which it was built. */
  lemma JobCarriesMarker(plan: Plan, i: nat)
    requires ValidPlan(plan) && i < U64_LIMIT
    ensures Marker(SourceOf(plan).value(i)) == Some(plan.clock(i))
  {
    MarkerRoundTrip(plan.queues[QueueOf(plan, i)], PriorityOf(plan, i), i, plan.clock(i));
  }

  lemma PayloadInjective(plan: Plan, i: nat, j: nat)
    requires ValidPlan(plan) && i < U64_LIMIT && j < U64_LIMIT
    requires SourceOf(plan).value(i) == SourceOf(plan).value(j)
    ensures i == j
  {
    BodyInjective(plan.queues[QueueOf(plan, i)], PriorityOf(plan, i), i, plan.clock(i),
                  plan.queues[QueueOf(plan, j)], PriorityOf(plan, j), j, plan.clock(j));
  }

  /** Whoever pops, no job is popped twice, and each is one of the trial's own. */
  lemma PoppedOnce(o: Settings, t: Trial, s: State)
    requires ValidSettings(o) && Measured(o, t) && Reachable(t.config, t.start, s)
    requires o.jobs <= U64_LIMIT
    ensures Distinct(s.log.popped)
    ensures forall p | p in s.log.popped :: IsOwnJob(t.plan, o.jobs, p)
  {
    SchedulerIndependentOrder(o, t, s);
    var order, popped := PopOrder(t.plan, o.jobs), s.log.popped;
    forall a | 0 <= a < |popped|
      ensures order[a] < o.jobs && popped[a] == SourceOf(t.plan).value(order[a])
    {
      assert order[a] in order;
    }
    forall a, b | 0 <= a < b < |popped| ensures popped[a] != popped[b] {
      assert Before(Positions(t.plan), order[a], order[b]);
      if popped[a] == popped[b] {
        PayloadInjective(t.plan, order[a], order[b]);
      }
    }
  }

  ghost predicate IsOwnJob(plan: Plan, jobs: nat, p: Payload)
    requires ValidPlan(plan)
  {
    exists i: nat :: i < jobs && SourceOf(plan).value(i) == p
  }

  ghost function IndexOf(plan: Plan, jobs: nat, p: Payload): (i: nat)
    requires ValidPlan(plan) && IsOwnJob(plan, jobs, p)
    ensures i < jobs && SourceOf(plan).value(i) == p
  {
    var i: nat :| i < jobs && SourceOf(plan).value(i) == p;
    i
  }

  /** The jobs read are among those popped, so none is read twice. */
  lemma ReadOnce(c: Config, start: Store, s: State)
    requires ValidConfig(c) && Reachable(c, start, s) && Distinct(s.log.popped)
    ensures Distinct(JobsRead(s.log.readings))
    ensures forall p | p in JobsRead(s.log.readings) :: p in s.log.popped
  {
    ReachableInv(c, start, s);
    UncountedIsHeld(s.ws);
    DistinctPart(JobsRead(s.log.readings), s.log.popped);
  }

  /** Job i, read by a worker whose clock shows `now`. */
  datatype Wait = Wait(i: nat, now: nat)

  /** How long job w.i had waited since it was built. */
  function WaitUs(clock: nat -> u64, w: Wait): nat { LatencyUs(clock(w.i), w.now) }

  function WaitsUs(clock: nat -> u64, waits: seq<Wait>): (us: seq<nat>)
    ensures |us| == |waits|
  {
    if waits == [] then []
    else WaitsUs(clock, waits[..|waits| - 1]) + [WaitUs(clock, waits[|waits| - 1])]
  }

  /** The k-th reading was of the job waits[k].i of the plan. */
  ghost predicate ReadingsAre(plan: Plan, jobs: nat, readings: seq<Reading>, waits: seq<Wait>)
    requires ValidPlan(plan)
  {
    && |waits| == |readings|
    && forall k | 0 <= k < |waits| ::
         waits[k].i < jobs
         && readings[k] == Reading(SourceOf(plan).value(waits[k].i), waits[k].now)
  }

  ghost predicate EachOnce(waits: seq<Wait>) {
    forall j, k | 0 <= j < k < |waits| :: waits[j].i != waits[k].i
  }

  lemma {:induction false} SamplesAreWaitsUs(
      plan: Plan, jobs: nat, c: Config, readings: seq<Reading>, waits: seq<Wait>)
    requires ValidPlan(plan) && jobs <= U64_LIMIT && c.decode == Marker
    requires ReadingsAre(plan, jobs, readings, waits)
    ensures SamplesFrom(c, readings) == WaitsUs(plan.clock, waits)
  {
    if waits != [] {
      var n := |waits| - 1;
      SamplesAreWaitsUs(plan, jobs, c, readings[..n], waits[..n]);
      JobCarriesMarker(plan, waits[n].i);
    }
  }

  /** At every moment of a measured trial, each sample sent is the wait of one of the
      trial's jobs, from the instant it was built to the instant it was read; and no job
      has been read twice. */
  lemma SamplesAreWaits(o: Settings, t: Trial, s: State) returns (waits: seq<Wait>)
    requires ValidSettings(o) && Measured(o, t) && Reachable(t.config, t.start, s)
    requires o.jobs <= U64_LIMIT
    ensures ReadingsAre(t.plan, o.jobs, s.log.readings, waits) && EachOnce(waits)
    ensures s.log.sent == WaitsUs(t.plan.clock, waits)
  {
    var readings := s.log.readings;
    ConfigValid(o, o.jobs, t.config.workers);
    PoppedOnce(o, t, s);
    ReadOnce(t.config, t.start, s);
    assert forall k | 0 <= k < |readings| :: readings[k].job in JobsRead(readings);
    waits := seq(|readings|, k requires 0 <= k < |readings| =>
                   Wait(IndexOf(t.plan, o.jobs, readings[k].job), readings[k].now));
    SamplesAreWaitsUs(t.plan, o.jobs, t.config, readings, waits);
    NoneTwice(t.plan, o.jobs, readings, waits);
    SampleOrigin(t.config, t.start, s);
  }

  lemma NoneTwice(plan: Plan, jobs: nat, readings: seq<Reading>, waits: seq<Wait>)
    requires ValidPlan(plan) && ReadingsAre(plan, jobs, readings, waits)
    requires Distinct(JobsRead(readings))
    ensures EachOnce(waits)
  {
    forall j, k | 0 <= j < k < |waits| ensures waits[j].i != waits[k].i {
      assert JobsRead(readings)[j] != JobsRead(readings)[k];
    }
  }

  lemma SampleOrigin(c: Config, start: Store, s: State)
    requires ValidConfig(c) && Reachable(c, start, s)
    ensures s.log.sent == SamplesFrom(c, s.log.readings)
    ensures |s.log.readings| == s.sh.completed + Total(s.ws, Between)
  {
    ReachableInv(c, start, s);
    UncountedSize(s.ws);
    assert |multiset(JobsRead(s.log.readings))| == |s.log.readings|;
    assert |multiset(s.log.finished)| == |s.log.finished|;
  }

  // ---- which samples the report keeps ----

  /** The job waited less than cap + 1 microseconds, counted from the instant at which it
      was built - which is before the trial's clock starts. */
  predicate Timely(clock: nat -> u64, cap: nat, w: Wait) {
    w.now < clock(w.i) + 1000 * (cap + 1)
  }

  function TimelyOf(clock: nat -> u64, cap: nat, waits: seq<Wait>): seq<Wait> {
    if waits == [] then []
    else
      var last := waits[|waits| - 1];
      TimelyOf(clock, cap, waits[..|waits| - 1]) + if Timely(clock, cap, last) then [last] else []
  }

  /** A sample is kept exactly when the job waited less than cap + 1 microseconds. */
  lemma KeptExactly(cap: nat, enqueued: nat, now: nat)
    requires cap >= 1
    ensures Record(cap, [], LatencyUs(enqueued, now)) == [LatencyUs(enqueued, now)]
       <==> now < enqueued + 1000 * (cap + 1)
  {}

  lemma {:induction false} TimelyAreRecorded(clock: nat -> u64, cap: nat, waits: seq<Wait>)
    requires cap >= 1
    ensures Recorded(cap, WaitsUs(clock, waits)) == WaitsUs(clock, TimelyOf(clock, cap, waits))
  {
    if waits != [] {
      var front, last := waits[..|waits| - 1], waits[|waits| - 1];
      TimelyAreRecorded(clock, cap, front);
      RecordedSnoc(cap, WaitsUs(clock, front), WaitUs(clock, last));
      KeptExactly(cap, clock(last.i), last.now);
      WaitsUsSnoc(clock, TimelyOf(clock, cap, front), last);
      assert TimelyOf(clock, cap, front) + [] == TimelyOf(clock, cap, front);
    }
  }

  lemma WaitsUsSnoc(clock: nat -> u64, waits: seq<Wait>, w: Wait)
    ensures WaitsUs(clock, waits + [w]) == WaitsUs(clock, waits) + [WaitUs(clock, w)]
  {
    assert (waits + [w])[..|waits|] == waits;
  }

  lemma {:induction false} AllTimely(clock: nat -> u64, cap: nat, waits: seq<Wait>)
    ensures |TimelyOf(clock, cap, waits)| <= |waits|
    ensures |TimelyOf(clock, cap, waits)| == |waits|
       <==> forall k | 0 <= k < |waits| :: Timely(clock, cap, waits[k])
  {
    if waits != [] {
      AllTimely(clock, cap, waits[..|waits| - 1]);
    }
  }

  /** The reported histogram holds exactly the waits below cap + 1 microseconds of the jobs
      counted, in the order in which they were read; it misses none of the counted jobs
      exactly when no job had waited longer since it was built. */
  lemma ReportIsTimelyWaits(o: Settings, t: Trial) returns (waits: seq<Wait>)
    requires ValidSettings(o) && Measured(o, t) && o.jobs <= U64_LIMIT
    ensures ReadingsAre(t.plan, o.jobs, t.end.log.readings, waits) && EachOnce(waits)
    ensures t.end.orch.report.total == |waits|
    ensures t.end.orch.report.hist == WaitsUs(t.plan.clock, TimelyOf(t.plan.clock, o.cap, waits))
    ensures |t.end.orch.report.hist| == t.end.orch.report.total
       <==> forall k | 0 <= k < |waits| :: Timely(t.plan.clock, o.cap, waits[k])
  {
    ConfigValid(o, o.jobs, t.config.workers);
    waits := SamplesAreWaits(o, t, t.end);
    ReportedReadings(t.config, t.start, t.end);
    TimelyAreRecorded(t.plan.clock, o.cap, waits);
    AllTimely(t.plan.clock, o.cap, waits);
  }

  lemma ReportedReadings(c: Config, start: Store, s: State)
    requires ValidConfig(c) && Reachable(c, start, s) && s.orch.phase == Finished
    ensures s.orch.report.total == |s.log.readings|
    ensures s.orch.report.hist == Recorded(c.cap, s.log.sent)
  {
    SampleOrigin(c, start, s);
    FinishedBetween(c, start, s);
    ReportIsFinal(c, start, s);
    ReportConserves(c, start, s);
  }

  lemma FinishedBetween(c: Config, start: Store, s: State)
    requires ValidConfig(c) && Reachable(c, start, s) && s.orch.phase == Finished
    ensures Total(s.ws, Between) == 0
  {
    ReachableShape(c, start, s);
    NobodyBetween(s);
  }

  /** In a measured trial every error is a failed BRPOP, and the report's count of jobs is
      its histogram's count plus the samples too large for it. */
  lemma ErrorsAreFailedPops(o: Settings, t: Trial)
    requires ValidSettings(o) && Measured(o, t) && o.jobs <= U64_LIMIT
    ensures t.end.orch.report.errors == t.end.log.transient
    ensures t.end.orch.report.total
         == |t.end.orch.report.hist| + Above(t.config.cap, t.end.log.sent)
  {
    var c, s := t.config, t.end;
    ConfigValid(o, o.jobs, c.workers);
    var waits := SamplesAreWaits(o, t, s);
    SampleOrigin(c, t.start, s);
    SamplesConserved(c, t.start, s);
    ReportConserves(c, t.start, s);
    ReportIsFinal(c, t.start, s);
  }

  /** Not every reachable latency is recordable: for every bound, every producer clock and
      every prior content of the store there is a successful trial of one job whose
      histogram is empty, because the job had waited too long when it was read. */
  lemma SlowJobDropped(o: Settings, clock: nat -> u64, before: Store) returns (t: Trial)
    requires ValidSettings(o) && o.jobs == 1
    ensures Measured(o, t) && t.plan == PlanOf(o, clock) && t.start == Stocked(before, t.plan, o.jobs)
    ensures !TimedOut(t.end) && t.end.orch.report.total == o.jobs
    ensures t.end.orch.report.hist == []
  {
    var plan, c := PlanOf(o, clock), ConfigOf(o, o.jobs, 1);
    var start := Stocked(before, plan, o.jobs);
    ConfigValid(o, o.jobs, 1);
    StockedHolds(before, plan, o.jobs);
    FirstPopped(plan, start, o.jobs);
    JobCarriesMarker(plan, 0);
    var end := SampleDropped(c, start, clock(0));
    t := Trial(plan, c, start, end);
  }

  lemma OnlyIndex(order: seq<nat>)
    requires |order| == 1 && forall i: nat :: i in order <==> i < 1
    ensures order == [0]
  {
    assert order[0] in order;
  }

  lemma FirstPopped(plan: Plan, start: Store, n: nat)
    requires ValidPlan(plan) && Distinct(BrpopKeys(plan.queues))
    requires n == 1 && HoldsExactly(start, plan, n)
    ensures var keys := BrpopKeys(plan.queues);
            Ready(start, keys) && Popped(start, keys) == SourceOf(plan).value(0)
  {
    DrainOfExact(start, plan, n);
    PopOrderSorted(plan, n);
    OnlyIndex(PopOrder(plan, n));
    PopTakesHead(start, BrpopKeys(plan.queues));
  }

  // ---- isolation ----

  /** After any finished trial, a warmup or a measured one, nothing of it can disturb the
      next: no worker is left, and whatever else still runs leaves the store alone. */
  lemma TrialsAreIsolated(c: Config, start: Store, end: State, later: State)
    requires ValidConfig(c) && Reachable(c, start, end) && end.orch.phase == Finished
    requires Leads(c, end, later)
    ensures forall i | 0 <= i < |later.ws| :: later.ws[i].Gone?
    ensures later.sh.store == end.sh.store && later.orch.report == end.orch.report
  {
    var acts :| Runs(c, end, acts, later);
    ReachableInv(c, start, end);
    FinishedIsQuiet(c, start, end, acts, later);
    FinishedHasNoWorker(c, end);
  }
}
