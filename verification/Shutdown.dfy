// How a trial ends: once the shutdown flag is set every schedule runs out of steps, the
// only place to run out is the finished report, and each worker takes at most one more job.
module Shutdown {
  import opened Broker
  import opened Protocol
  import opened Tally
  import opened Invariants
  import opened Schedules
  import opened Theorems

  // ---- at most one more job each ----

  /** May still count a job although the shutdown flag is set. */
  function MayCount(pc: PC): nat {
    if pc.AtTarget? || pc.Blocked? || pc.InFlight? || pc.Handling? || pc.Counting? then 1 else 0
  }

  lemma ActAfterShutdown(c: Config, l: Local, e: Event)
    requires Can(c, l, e) && l.sh.shutdown
    ensures var t := Act(c, l, e);
            && t.sh.shutdown
            && t.sh.completed + MayCount(t.pc) <= l.sh.completed + MayCount(l.pc)
  {}

  lemma StepAfterShutdown(c: Config, s: State, a: Action)
    requires Enabled(c, s, a) && s.sh.shutdown && Rank(s.orch.phase) > 0
    ensures var t := Apply(c, s, a);
            && t.sh.shutdown && Rank(t.orch.phase) > 0
            && t.sh.completed + Total(t.ws, MayCount) <= s.sh.completed + Total(s.ws, MayCount)
  {
    match a
    case Work(i, e) =>
      var l := Local(s.sh, s.log, s.ws[i]);
      ActAfterShutdown(c, l, e);
      TotalPlace(s.ws, i, Act(c, l, e).pc, MayCount);
    case Kill(i) => TotalPlace(s.ws, i, Gone, MayCount);
    case Main(_) =>
    case Collect(_) =>
    case Tick(_) =>
  }

  lemma {:induction false} RunAfterShutdown(c: Config, s: State, acts: seq<Action>, t: State)
    requires Runs(c, s, acts, t) && s.sh.shutdown && Rank(s.orch.phase) > 0
    ensures t.sh.completed + Total(t.ws, MayCount) <= s.sh.completed + Total(s.ws, MayCount)
    decreases |acts|
  {
    Unroll(c, s, acts, t);
    if acts != [] {
      StepAfterShutdown(c, s, acts[0]);
      RunAfterShutdown(c, Apply(c, s, acts[0]), acts[1..], t);
    }
  }

  /** From the shutdown flag to the report, each worker counts at most one more job. */
  lemma OneMoreJobEach(c: Config, start: Store, s: State, acts: seq<Action>, t: State)
    requires ValidConfig(c) && Reachable(c, start, s) && Runs(c, s, acts, t) && s.sh.shutdown
    ensures t.sh.completed <= s.sh.completed + c.workers
  {
    ReachableShape(c, start, s);
    RunAfterShutdown(c, s, acts, t);
    TotalBound(s.ws, MayCount, 1);
  }

  lemma StepCountsUp(c: Config, s: State, a: Action)
    requires Enabled(c, s, a)
    ensures Apply(c, s, a).sh.completed >= s.sh.completed
  {}

  lemma {:induction false} RunCountsUp(c: Config, s: State, acts: seq<Action>, t: State)
    requires Runs(c, s, acts, t)
    ensures t.sh.completed >= s.sh.completed
    decreases |acts|
  {
    Unroll(c, s, acts, t);
    if acts != [] {
      StepCountsUp(c, s, acts[0]);
      RunCountsUp(c, Apply(c, s, acts[0]), acts[1..], t);
    }
  }

  /** What the drain adds to the count that the shutdown flag finds: nothing is taken back,
      and only workers that had passed the look at the flag add to it, one job each. */
  lemma DrainAdds(c: Config, start: Store, s: State, t: State)
    requires ValidConfig(c) && Reachable(c, start, s) && s.sh.shutdown
    requires Leads(c, s, t) && t.orch.phase == Finished
    ensures s.sh.completed <= t.orch.report.total <= s.sh.completed + Total(s.ws, MayCount)
    ensures Total(s.ws, MayCount) <= c.workers
    ensures t.orch.report.total <= c.target + c.workers - 1
  {
    var acts :| Runs(c, s, acts, t);
    ReachableShape(c, start, s);
    RunAfterShutdown(c, s, acts, t);
    RunCountsUp(c, s, acts, t);
    TotalBound(s.ws, MayCount, 1);
    GoOn(c, Init(start), s, t);
    ReportIsFinal(c, start, t);
    OvershootBound(c, start, t);
  }

  // ---- termination ----

  /** An upper bound on the steps a worker has left, with the samples it may still send. */
  function Left(pc: PC): nat {
    match pc
    case Fresh => 2
    case Top => 1
    case AtTarget => 9
    case Blocked => 8
    case InFlight(_) => 7
    case Handling(_) => 6
    case Counting(_) => 4
    case Signalling(_) => 2
    case Sleeping => 2
    case Gone => 0
  }

  function MonLeft(pc: MonPC): nat {
    match pc
    case Unborn => 0
    case Stopped => 0
    case Asleep => 1
    case Answered(_) => 2
    case Requested => 3
    case ErrsPushed => 5
    case ErrsLoaded(_) => 6
    case TputPushed => 7
    case Loaded(_) => 8
    case Awake => 9
  }

  /** How many of the first n workers are not joined yet. */
  function Unjoined(n: nat, joined: seq<nat>): nat {
    if n == 0 then 0 else Unjoined(n - 1, joined) + if n - 1 in joined then 0 else 1
  }

  lemma {:induction false} JoinOne(n: nat, joined: seq<nat>, i: nat)
    requires i !in joined
    ensures Unjoined(n, joined + [i]) == Unjoined(n, joined) - if i < n then 1 else 0
  {
    if n > 0 {
      JoinOne(n - 1, joined, i);
    }
  }

  function MonitorLeft(s: State): nat {
    MonLeft(s.mon.pc) + (if s.mon.pending then 1 else 0)
  }

  function CollectorLeft(s: State): nat {
    |s.sh.chan| + (if s.col.exited then 0 else 1)
  }

  function MainLeft(s: State): nat {
    (12 - Rank(s.orch.phase)) + Unjoined(|s.ws|, s.orch.joined)
  }

  function StepsLeft(s: State): nat {
    Total(s.ws, Left) + CollectorLeft(s) + MonitorLeft(s) + MainLeft(s)
  }

  lemma ActLeft(c: Config, l: Local, e: Event)
    requires Can(c, l, e) && l.sh.shutdown
    ensures |Act(c, l, e).sh.chan| + Left(Act(c, l, e).pc) < |l.sh.chan| + Left(l.pc)
  {}

  lemma RankRises(c: Config, s: State, m: MainEvent)
    requires CanMain(c, s, m) && Rank(s.orch.phase) >= 4 && !m.Join?
    ensures Rank(s.orch.phase) < Rank(ApplyMain(c, s, m).orch.phase) <= 12
    ensures ApplyMain(c, s, m).orch.joined == s.orch.joined && !m.Spawn?
  {}

  lemma MainLeftFalls(c: Config, s: State, m: MainEvent)
    requires CanMain(c, s, m) && Rank(s.orch.phase) >= 4
    ensures MainLeft(ApplyMain(c, s, m)) < MainLeft(s)
    ensures Rank(ApplyMain(c, s, m).orch.phase) >= 4
  {
    if m.Join? {
      JoinOne(|s.ws|, s.orch.joined, m.i);
    } else {
      RankRises(c, s, m);
    }
  }

  lemma CollectLeftFalls(c: Config, s: State, k: ColEvent)
    requires CanCollect(s, k)
    ensures var t := ApplyCollect(c, s, k);
            CollectorLeft(t) + MonitorLeft(t) < CollectorLeft(s) + MonitorLeft(s)
  {}

  lemma TickLeftFalls(s: State, m: MonEvent)
    requires CanTick(s, m) && Rank(s.orch.phase) >= 4
    ensures MonitorLeft(s.(mon := ApplyTick(s, m))) < MonitorLeft(s)
  {}

  lemma WorkUsesSteps(c: Config, s: State, i: nat, e: Event)
    requires Enabled(c, s, Work(i, e)) && s.sh.shutdown
    ensures var t := Apply(c, s, Work(i, e));
            StepsLeft(t) < StepsLeft(s) && t.sh.shutdown && t.orch == s.orch
  {
    var l := Local(s.sh, s.log, s.ws[i]);
    ActAfterShutdown(c, l, e);
    ActLeft(c, l, e);
    TotalPlace(s.ws, i, Act(c, l, e).pc, Left);
  }

  /** After the shutdown flag is set, every step of anything uses up steps. */
  lemma StepsRunOut(c: Config, s: State, a: Action)
    requires Enabled(c, s, a) && Rank(s.orch.phase) >= 4 && s.sh.shutdown
    ensures StepsLeft(Apply(c, s, a)) < StepsLeft(s)
    ensures Rank(Apply(c, s, a).orch.phase) >= 4 && Apply(c, s, a).sh.shutdown
  {
    match a
    case Work(i, e) => WorkUsesSteps(c, s, i, e);
    case Kill(i) => TotalPlace(s.ws, i, Gone, Left);
    case Main(m) => MainLeftFalls(c, s, m);
    case Collect(k) => CollectLeftFalls(c, s, k);
    case Tick(m) => TickLeftFalls(s, m);
  }

  lemma {:induction false} SchedulesRunOut(c: Config, s: State, acts: seq<Action>, t: State)
    requires Runs(c, s, acts, t) && Rank(s.orch.phase) >= 4 && s.sh.shutdown
    ensures |acts| + StepsLeft(t) <= StepsLeft(s)
    ensures Rank(t.orch.phase) >= 4
    decreases |acts|
  {
    Unroll(c, s, acts, t);
    if acts != [] {
      StepsRunOut(c, s, acts[0]);
      SchedulesRunOut(c, Apply(c, s, acts[0]), acts[1..], t);
    }
  }

  /** A step for a worker that is not gone; none needs anybody else. */
  function NextEvent(pc: PC): Event
    requires !pc.Gone?
  {
    match pc
    case Fresh => Start
    case Top => CheckShutdown
    case AtTarget => CheckTarget
    case Blocked => PopTimeout
    case InFlight(_) => Deliver
    case Handling(_) => Decode(0)
    case Counting(_) => Increment
    case Signalling(_) => Signal
    case Sleeping => Wake
  }

  lemma WorkerCanMove(c: Config, s: State, i: nat)
    requires s.orch.phase != Failed && i < |s.ws| && !s.ws[i].Gone?
    ensures Enabled(c, s, Work(i, NextEvent(s.ws[i])))
  {}

  lemma DrainingCanMove(c: Config, s: State) returns (a: Action)
    requires s.orch.phase == Draining || s.orch.phase == Aborting
    ensures Enabled(c, s, a)
  {
    if AllJoined(s) {
      a := Main(if s.orch.phase == Draining then DrainDone else AbortDone);
    } else {
      var i: nat :| i < |s.ws| && i !in s.orch.joined;
      if s.ws[i].Gone? {
        a := Main(Join(i));
      } else {
        WorkerCanMove(c, s, i);
        a := Work(i, NextEvent(s.ws[i]));
      }
    }
  }

  lemma ClosingCanMove(c: Config, s: State) returns (a: Action)
    requires s.orch.phase == Closing && Shape(c, s) && Joins(s)
    ensures Enabled(c, s, a)
  {
    GoneMeansNoSenders(s);
    a := if s.col.exited then Main(TakeHist)
         else if s.sh.chan != [] then Collect(Receive) else Collect(Close);
  }

  lemma EarlyCanMove(c: Config, s: State) returns (a: Action)
    requires Rank(s.orch.phase) < 4 && s.orch.phase != Failed && Shape(c, s)
    ensures Enabled(c, s, a)
  {
    match s.orch.phase
    case Spawning => a := Main(if |s.ws| < c.workers then Spawn else FinishSpawn);
    case Waiting => a := Main(PollDone);
    case SawNotDone => a := Main(PollTimer(true));
    case SawNoTimer => a := Main(if AllJoined(s) then PollAllExited else PollPending);
    case Decided => a := Main(AbortMonitor);
    case MonitorAborted => a := Main(SetShutdown);
  }

  lemma LateCanMove(c: Config, s: State) returns (a: Action)
    requires 4 <= Rank(s.orch.phase) < 12 && Shape(c, s) && Joins(s)
    ensures Enabled(c, s, a)
  {
    match s.orch.phase
    case ShutdownSet => a := Main(DropSentinel);
    case Draining => a := DrainingCanMove(c, s);
    case Aborting => a := DrainingCanMove(c, s);
    case Closing => a := ClosingCanMove(c, s);
    case GotHist => a := Main(ReadTotals);
    case GotTotals => a := Main(ReadTput);
    case GotTput => a := Main(ReadErrs);
    case GotErrs => a := Main(ReadLat);
  }

  /** Short of the report (or a failed start), some step is always enabled. */
  lemma NeverStuck(c: Config, start: Store, s: State) returns (a: Action)
    requires ValidConfig(c) && Reachable(c, start, s)
    requires s.orch.phase != Finished && s.orch.phase != Failed
    ensures Enabled(c, s, a)
  {
    ReachableShape(c, start, s);
    if Rank(s.orch.phase) < 4 {
      a := EarlyCanMove(c, s);
    } else {
      a := LateCanMove(c, s);
    }
  }

  lemma ReachableStep(c: Config, start: Store, s: State, acts: seq<Action>, t: State)
    requires Reachable(c, start, s) && Runs(c, s, acts, t)
    ensures Reachable(c, start, t)
  {
    GoOn(c, Init(start), s, t);
  }

  /** Whatever the scheduler does after the shutdown flag is set, it runs out of steps,
      and where no step is left the report is there. */
  lemma ShutdownTerminates(c: Config, start: Store, s: State, acts: seq<Action>, t: State)
    requires ValidConfig(c) && Reachable(c, start, s) && s.sh.shutdown && Runs(c, s, acts, t)
    ensures |acts| <= StepsLeft(s)
    ensures (forall a :: !Enabled(c, t, a)) ==> t.orch.phase == Finished
  {
    ReachableShape(c, start, s);
    SchedulesRunOut(c, s, acts, t);
    ReachableStep(c, start, s, acts, t);
    if t.orch.phase != Finished {
      var a := NeverStuck(c, start, t);
    }
  }
}
