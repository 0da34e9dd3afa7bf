// What holds of every trial, under every schedule.
module Theorems {
  import opened Job
  import opened Broker
  import opened Protocol
  import opened Tally
  import opened Invariants
  import opened Schedules

  // ---- jobs ----

  /** The jobs popped so far, by whichever workers in whatever interleaving, are a prefix
      of one sequence that the initial store determines. */
  lemma PopsFollowOneOrder(c: Config, start: Store, s: State)
    requires ValidConfig(c) && Reachable(c, start, s)
    ensures s.log.popped <= Drain(start, c.keys)
  {
    ReachableInv(c, start, s);
  }

  /** Every job that was enqueued is in exactly one place: in a list, in a worker's hands,
      counted, or lost with a reply that never arrived. */
  lemma ExactlyOnce(c: Config, start: Store, s: State)
    requires ValidConfig(c) && Reachable(c, start, s)
    ensures multiset(Drain(start, c.keys))
         == multiset(Drain(s.sh.store, c.keys)) + Held(s.ws)
            + multiset(s.log.finished) + multiset(s.log.lost)
    ensures |s.log.finished| == s.sh.completed
  {
    ReachableInv(c, start, s);
    assert multiset(s.log.popped + Drain(s.sh.store, c.keys))
        == multiset(s.log.popped) + multiset(Drain(s.sh.store, c.keys));
  }

  lemma JobCount(c: Config, start: Store, s: State)
    requires ValidConfig(c) && Reachable(c, start, s)
    ensures |Drain(start, c.keys)|
         == |Drain(s.sh.store, c.keys)| + Total(s.ws, InHand) + s.sh.completed + |s.log.lost|
  {
    ReachableInv(c, start, s);
    HeldSize(s.ws);
    assert |multiset(s.log.popped)| == |s.log.popped|;
  }

  /** The count never exceeds what was enqueued, and equals it exactly when nothing is
      left, in hand or lost. */
  lemma CountedOnce(c: Config, start: Store, s: State)
    requires ValidConfig(c) && Reachable(c, start, s)
    ensures s.sh.completed <= |Drain(start, c.keys)|
    ensures s.sh.completed == |Drain(start, c.keys)|
       <==> Drain(s.sh.store, c.keys) == [] && Total(s.ws, InHand) == 0 && s.log.lost == []
  {
    JobCount(c, start, s);
  }

  /** While the target is ahead and nothing was lost, there is a job to pop or in hand. */
  lemma NoStall(c: Config, start: Store, s: State)
    requires ValidConfig(c) && Reachable(c, start, s)
    requires c.target <= |Drain(start, c.keys)| && s.log.lost == []
    requires s.sh.completed < c.target
    ensures Ready(s.sh.store, c.keys) || exists i | 0 <= i < |s.ws| :: InHand(s.ws[i]) == 1
  {
    JobCount(c, start, s);
    PopTakesHead(s.sh.store, c.keys);
    if !Ready(s.sh.store, c.keys) {
      var i := TotalWitness(s.ws, InHand);
    }
  }

  // ---- progress ----

  /** Steps left for the job in hand. */
  function Effort(pc: PC): nat {
    match pc
    case InFlight(_) => 4
    case Handling(_) => 3
    case Counting(_) => 2
    case Signalling(_) => 1
    case _ => 0
  }

  function Backlog(c: Config, s: State): nat {
    5 * |Drain(s.sh.store, c.keys)| + Total(s.ws, Effort)
  }

  /** A step that moves a job on: a pop, or anything the worker then does for it. */
  predicate Productive(s: State, a: Action) {
    a.Work? && (a.e.ServerPop? || (a.i < |s.ws| && Effort(s.ws[a.i]) > 0))
  }

  lemma OnlyPopsTouchStore(c: Config, l: Local, e: Event)
    requires Can(c, l, e) && !e.ServerPop?
    ensures Act(c, l, e).sh.store == l.sh.store
    ensures Effort(Act(c, l, e).pc) + (if Effort(l.pc) > 0 then 1 else 0) <= Effort(l.pc)
  {}

  /** A pop brings in less effort than its job stood for in the list. */
  lemma PopEffort(c: Config, l: Local)
    requires Distinct(c.keys) && Can(c, l, ServerPop)
    ensures var t := Act(c, l, ServerPop);
            |Drain(t.sh.store, c.keys)| + 1 == |Drain(l.sh.store, c.keys)| && Effort(t.pc) == 4
  {
    PopTakesHead(l.sh.store, c.keys);
  }

  lemma ActEffort(c: Config, l: Local, e: Event)
    requires Distinct(c.keys) && Can(c, l, e)
    ensures var t := Act(c, l, e);
            5 * |Drain(t.sh.store, c.keys)| + Effort(t.pc)
            + (if e.ServerPop? || Effort(l.pc) > 0 then 1 else 0)
            <= 5 * |Drain(l.sh.store, c.keys)| + Effort(l.pc)
  {
    if e.ServerPop? {
      PopEffort(c, l);
    } else {
      OnlyPopsTouchStore(c, l, e);
    }
  }

  /** No step adds work, and every productive step takes some away. */
  lemma BacklogFalls(c: Config, s: State, a: Action)
    requires Distinct(c.keys) && Enabled(c, s, a)
    ensures Backlog(c, Apply(c, s, a)) + (if Productive(s, a) then 1 else 0) <= Backlog(c, s)
  {
    match a
    case Work(i, e) =>
      var l := Local(s.sh, s.log, s.ws[i]);
      ActEffort(c, l, e);
      TotalPlace(s.ws, i, Act(c, l, e).pc, Effort);
    case Kill(i) => TotalPlace(s.ws, i, Gone, Effort);
    case Main(m) => if m.Spawn? { TotalSpawn(s.ws, Fresh, Effort); }
    case Collect(_) =>
    case Tick(_) =>
  }

  ghost function ProductiveSteps(c: Config, s: State, acts: seq<Action>): nat
    decreases |acts|
  {
    if acts == [] || !Enabled(c, s, acts[0]) then 0
    else (if Productive(s, acts[0]) then 1 else 0)
         + ProductiveSteps(c, Apply(c, s, acts[0]), acts[1..])
  }

  /** However long a schedule is, only so many of its steps handle jobs. */
  lemma {:induction false} WorkIsBounded(c: Config, s: State, acts: seq<Action>, t: State)
    requires Distinct(c.keys) && Runs(c, s, acts, t)
    ensures ProductiveSteps(c, s, acts) + Backlog(c, t) <= Backlog(c, s)
    decreases |acts|
  {
    Unroll(c, s, acts, t);
    if acts != [] {
      BacklogFalls(c, s, acts[0]);
      WorkIsBounded(c, Apply(c, s, acts[0]), acts[1..], t);
    }
  }

  // ---- samples ----

  function Above(cap: nat, values: seq<nat>): nat {
    if values == [] then 0
    else Above(cap, values[..|values| - 1]) + if values[|values| - 1] > cap then 1 else 0
  }

  lemma {:induction false} RecordedOrAbove(cap: nat, values: seq<nat>)
    ensures |Recorded(cap, values)| + Above(cap, values) == |values|
  {
    if values != [] {
      RecordedOrAbove(cap, values[..|values| - 1]);
    }
  }

  /** In every state, samples and decoding errors pair off with counted jobs and with
      workers that have yet to count theirs. */
  lemma SamplesConserved(c: Config, start: Store, s: State)
    requires ValidConfig(c) && Reachable(c, start, s)
    ensures |s.log.sent| + s.log.undecodable == s.sh.completed + Total(s.ws, Between)
    ensures s.sh.errors == s.log.undecodable + s.log.transient
  {
    ReachableInv(c, start, s);
  }

  lemma NobodyBetween(s: State)
    requires Joins(s) && AllJoined(s)
    ensures Total(s.ws, Between) == 0 && Total(s.ws, Announcing) == 0 && Total(s.ws, InHand) == 0
  {
    forall i | 0 <= i < |s.ws| ensures s.ws[i].Gone? { assert i in s.orch.joined; }
    TotalZero(s.ws, Between);
    TotalZero(s.ws, Announcing);
    TotalZero(s.ws, InHand);
  }

  /** The report accounts for every sample, even when workers were aborted: its histogram
      holds exactly the samples sent that fit, and its totals add up. */
  lemma ReportConserves(c: Config, start: Store, s: State)
    requires ValidConfig(c) && Reachable(c, start, s) && s.orch.phase == Finished
    ensures s.orch.report.hist == Recorded(c.cap, s.log.sent)
    ensures s.orch.report.total + s.log.transient
         == |s.orch.report.hist| + Above(c.cap, s.log.sent) + s.orch.report.errors
  {
    ReachableInv(c, start, s);
    ReportedSamples(c, s);
    NobodyBetween(s);
    RecordedOrAbove(c.cap, s.log.sent);
  }

  lemma ReportedSamples(c: Config, s: State)
    requires Windows(c, s) && Totals(s) && Closure(s) && s.orch.phase == Finished
    ensures s.orch.report.hist == Recorded(c.cap, s.log.sent)
  {
    assert s.col.received + [] == s.col.received;
  }

  /** The histogram is the windows handed out, in order, and then the current one. */
  lemma WindowsPartition(c: Config, start: Store, s: State)
    requires ValidConfig(c) && Reachable(c, start, s)
    ensures s.col.hist == Flatten(s.col.cuts) + s.col.window
    ensures s.col.hist == Recorded(c.cap, s.col.received)
    ensures s.col.received + s.sh.chan == s.log.sent
  {
    ReachableInv(c, start, s);
  }

  // ---- the target ----

  /** Whatever the lists hold, at most workers - 1 jobs are counted beyond the target. */
  lemma OvershootBound(c: Config, start: Store, s: State)
    requires ValidConfig(c) && Reachable(c, start, s)
    ensures s.sh.completed <= c.target + c.workers - 1
  {
    ReachableInv(c, start, s);
  }

  /** One increment returns the target once it is reached, and no other does; the flag is
      then set, or some worker is about to set it; it is never set before. */
  lemma DoneExact(c: Config, start: Store, s: State)
    requires ValidConfig(c) && Reachable(c, start, s)
    ensures s.sh.done ==> s.sh.completed >= c.target
    ensures s.sh.completed >= c.target ==>
              s.sh.done || exists i | 0 <= i < |s.ws| :: s.ws[i].Signalling?
    ensures forall k | 0 <= k < |s.log.tickets| :: s.log.tickets[k] == c.target <==> k == c.target - 1
    ensures s.sh.completed >= c.target <==> c.target in s.log.tickets
  {
    ReachableTotals(c, start, s);
    if s.sh.completed >= c.target {
      assert s.log.tickets[c.target - 1] == c.target;
      if !s.sh.done {
        var i := TotalWitness(s.ws, Announcing);
      }
    }
  }

  lemma {:induction false} DoneStays(c: Config, s: State, acts: seq<Action>, t: State)
    requires Runs(c, s, acts, t) && s.sh.done
    ensures t.sh.done
    decreases |acts|
  {
    Unroll(c, s, acts, t);
    if acts != [] {
      DoneStays(c, Apply(c, s, acts[0]), acts[1..], t);
    }
  }

  /** A trial not reported as timed out has counted at least its target. */
  lemma NotTimedOutIsComplete(c: Config, start: Store, s: State)
    requires ValidConfig(c) && Reachable(c, start, s) && s.orch.phase == Finished
    ensures !TimedOut(s) ==> s.orch.report.total >= c.target
  {
    ReachableTotals(c, start, s);
  }

  /** When all workers have exited, the target was reached exactly if the flag is set: so
      the label "exited before the target" is right exactly when the flag, read again at
      that moment, is still clear. */
  lemma LabelExact(c: Config, start: Store, s: State)
    requires ValidConfig(c) && Reachable(c, start, s) && s.orch.verdict == AllExited
    ensures s.sh.completed < c.target <==> !s.sh.done
  {
    ReachableTotals(c, start, s);
    NobodyBetween(s);
  }

  lemma ReportIsFinal(c: Config, start: Store, s: State)
    requires ValidConfig(c) && Reachable(c, start, s) && s.orch.phase == Finished
    ensures s.orch.report.total == s.sh.completed && s.orch.report.errors == s.sh.errors
  {
    ReachableTotals(c, start, s);
  }

  /** Whatever the verdict was - a timeout too - the report shows the target reached
      exactly if the flag has been set by then. */
  lemma ReachedExactly(c: Config, start: Store, s: State)
    requires ValidConfig(c) && Reachable(c, start, s) && s.orch.phase == Finished
    ensures s.orch.report.total >= c.target <==> s.sh.done
  {
    ReachableTotals(c, start, s);
    NobodyBetween(s);
  }

  lemma StepKeepsVerdict(c: Config, s: State, a: Action)
    requires Shape(c, s) && Enabled(c, s, a) && s.orch.verdict != Undecided
    ensures Apply(c, s, a).orch.verdict == s.orch.verdict
  {}

  lemma {:induction false} VerdictStays(c: Config, start: Store, s: State, acts: seq<Action>, t: State)
    requires ValidConfig(c) && Inv(c, start, s) && Runs(c, s, acts, t)
    requires s.orch.verdict != Undecided
    ensures t.orch.verdict == s.orch.verdict
    decreases |acts|
  {
    Unroll(c, s, acts, t);
    if acts != [] {
      StepKeepsVerdict(c, s, acts[0]);
      StepInv(c, start, s, acts[0]);
      VerdictStays(c, start, Apply(c, s, acts[0]), acts[1..], t);
    }
  }

  lemma {:induction false} PollSeesOneFlag(c: Config, s: State, acts: seq<Action>, t: State)
    requires Runs(c, s, acts, t) && forall a | a in acts :: a.Main?
    ensures t.sh.done == s.sh.done
    decreases |acts|
  {
    Unroll(c, s, acts, t);
    if acts != [] {
      assert acts[0] in acts && forall a | a in acts[1..] :: a in acts;
      PollSeesOneFlag(c, Apply(c, s, acts[0]), acts[1..], t);
    }
  }

  /** If one poll of the select sees one snapshot - nothing else runs between its look at
      the flag and its verdict - then "all workers exited" is said only short of the target. */
  lemma AtomicPollIsRight(c: Config, start: Store, s: State, acts: seq<Action>, t: State)
    requires ValidConfig(c) && Reachable(c, start, s) && s.orch.phase == Waiting
    requires Runs(c, s, acts, t) && acts != [] && acts[0] == Main(PollDone)
    requires forall a | a in acts :: a.Main?
    requires t.orch.verdict == AllExited
    ensures t.sh.completed < c.target
  {
    ReachableInv(c, start, s);
    RunInv(c, start, s, acts, t);
    PollSeesOneFlag(c, s, acts, t);
    Unroll(c, s, acts, t);
    if s.sh.done {
      var u := Apply(c, s, acts[0]);
      StepInv(c, start, s, acts[0]);
      VerdictStays(c, start, u, acts[1..], t);
      assert false;
    }
    NobodyBetween(t);
  }

  // ---- closure ----

  /** The channel's senders are accounted for; joined workers are distinct, finished, and
      by the end all there are; the collector stops only when every sample sent has been
      consumed and nobody is left to send another. */
  lemma CleanClosure(c: Config, start: Store, s: State)
    requires ValidConfig(c) && Reachable(c, start, s)
    ensures s.sh.senders
         == SentinelHeld(s.orch.phase) + TemplateHeld(s.orch.phase) + Total(s.ws, Live)
    ensures Distinct(s.orch.joined)
    ensures forall i | i in s.orch.joined :: i < |s.ws| && s.ws[i].Gone?
    ensures Rank(s.orch.phase) >= 7 ==> forall i: nat :: i in s.orch.joined <==> i < c.workers
    ensures s.col.exited ==>
              s.col.received == s.log.sent && forall i | 0 <= i < |s.ws| :: s.ws[i].Gone?
  {
    ReachableInv(c, start, s);
    if s.col.exited {
      NoSenders(c, s);
      assert s.col.received + [] == s.col.received;
    }
  }

  lemma QuietStep(c: Config, s: State, a: Action)
    requires Joins(s) && s.orch.phase == Finished && Enabled(c, s, a)
    ensures var t := Apply(c, s, a);
            && t.sh.store == s.sh.store && t.ws == s.ws && t.orch == s.orch
            && t.sh.completed == s.sh.completed && t.sh.errors == s.sh.errors
  {
    NoWorkerLeft(c, s, a);
    OnlyTasksLeft(c, s, a);
  }

  /** The orchestrator has returned; the collector and the monitor touch nothing else. */
  lemma OnlyTasksLeft(c: Config, s: State, a: Action)
    requires s.orch.phase == Finished && Enabled(c, s, a) && !a.Work? && !a.Kill?
    ensures var t := Apply(c, s, a);
            && t.sh.store == s.sh.store && t.ws == s.ws && t.orch == s.orch
            && t.sh.completed == s.sh.completed && t.sh.errors == s.sh.errors
  {
    match a
    case Main(m) => MainIsOver(c, s, m);
    case Collect(_) =>
    case Tick(_) =>
  }

  lemma MainIsOver(c: Config, s: State, m: MainEvent)
    requires s.orch.phase == Finished
    ensures !CanMain(c, s, m)
  {}

  /** Once reported, a trial is over: no later step is a worker's or touches the store,
      the counters or the report. */
  lemma {:induction false} FinishedIsQuiet(
      c: Config, start: Store, s: State, acts: seq<Action>, t: State)
    requires ValidConfig(c) && Inv(c, start, s) && s.orch.phase == Finished
    requires Runs(c, s, acts, t)
    ensures t.sh.store == s.sh.store && t.ws == s.ws && t.orch == s.orch
    ensures t.sh.completed == s.sh.completed && t.sh.errors == s.sh.errors
    decreases |acts|
  {
    Unroll(c, s, acts, t);
    if acts != [] {
      QuietStep(c, s, acts[0]);
      StepInv(c, start, s, acts[0]);
      FinishedIsQuiet(c, start, Apply(c, s, acts[0]), acts[1..], t);
    }
  }

  lemma FinishedHasNoWorker(c: Config, s: State)
    requires Shape(c, s) && Joins(s) && s.orch.phase == Finished
    ensures |s.ws| == c.workers && forall i | 0 <= i < |s.ws| :: s.ws[i].Gone?
  {
    forall i | 0 <= i < |s.ws| ensures s.ws[i].Gone? { assert i in s.orch.joined; }
  }

  // ---- the monitor ----

  /** No delta is negative; the samples add up to the last counter read, which the final
      total has not fallen below. */
  lemma MonitorTelescopes(c: Config, start: Store, s: State)
    requires ValidConfig(c) && Reachable(c, start, s)
    ensures Sum(s.mon.tput) + PendingTput(s.mon.pc) == s.mon.prevCompleted <= s.sh.completed
    ensures Sum(s.mon.errs) + PendingErrs(s.mon.pc) == s.mon.prevErrors <= s.sh.errors
    ensures PendingTput(s.mon.pc) >= 0 && PendingErrs(s.mon.pc) >= 0
    ensures forall d | d in s.mon.tput + s.mon.errs :: d >= 0
  {
    ReachableInv(c, start, s);
  }

  /** The i-th latency sample describes the i-th window, and a tick's three samples are
      never out of step by more than the tick under way. */
  lemma SeriesInStep(c: Config, start: Store, s: State)
    requires ValidConfig(c) && Reachable(c, start, s)
    ensures s.mon.lat <= s.col.cuts
    ensures |s.mon.lat| <= |s.mon.tput| <= |s.mon.lat| + 1
    ensures |s.mon.errs| <= |s.mon.tput| <= |s.mon.errs| + 1
    ensures s.mon.pc.Asleep? && !s.col.exited ==> |s.mon.lat| == |s.mon.tput| == |s.mon.errs|
  {
    ReachableInv(c, start, s);
  }

  lemma {:induction false} SumOfPrefix(xs: seq<int>, ys: seq<int>)
    requires xs <= ys && forall d | d in ys :: d >= 0
    ensures Sum(xs) <= Sum(ys)
  {
    if |xs| < |ys| {
      var front := ys[..|ys| - 1];
      assert forall d | d in front :: d in ys;
      assert ys[|ys| - 1] in ys && xs <= front;
      SumOfPrefix(xs, front);
    } else {
      assert xs == ys;
    }
  }

  /** What the report shows per second never exceeds what it shows in total; its latency
      series is as long as its throughput series or one shorter, never longer. */
  lemma ReportSeriesBounded(c: Config, start: Store, s: State)
    requires ValidConfig(c) && Reachable(c, start, s) && s.orch.phase == Finished
    ensures Sum(s.orch.report.tput) <= s.orch.report.total
    ensures Sum(s.orch.report.errs) <= s.orch.report.errors
    ensures -1 <= |s.orch.report.errs| - |s.orch.report.tput| <= 1
    ensures s.orch.report.lat <= s.col.cuts
    ensures |s.orch.report.tput| - 1 <= |s.orch.report.lat| <= |s.orch.report.tput|
  {
    ReachableSeries(c, start, s);
    SumOfPrefix(s.orch.report.tput, s.mon.tput);
    SumOfPrefix(s.orch.report.errs, s.mon.errs);
  }
}
