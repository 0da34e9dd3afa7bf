// A trial always gets to its report: some continuation does so from everywhere, a timeout
// can strike while the target is ahead, and no worker need take another step.
module Abort {
  import opened Broker
  import opened Protocol
  import opened Tally
  import opened Invariants
  import opened Schedules
  import opened Theorems
  import opened Shutdown
  import opened Endings

  // ---- a report is always in reach ----

  lemma {:induction false} ReportAfterShutdown(c: Config, start: Store, s: State) returns (t: State)
    requires ValidConfig(c) && Reachable(c, start, s) && s.sh.shutdown && Rank(s.orch.phase) >= 4
    ensures Leads(c, s, t) && t.orch.phase == Finished && t.orch.verdict == s.orch.verdict
    decreases StepsLeft(s)
  {
    Stay(c, s);
    if s.orch.phase == Finished {
      t := s;
    } else {
      var a := NeverStuck(c, start, s);
      StepsRunOut(c, s, a);
      DecidedStays(c, start, s, a);
      var u := Go(c, s, s, a);
      GoOn(c, Init(start), s, u);
      t := ReportAfterShutdown(c, start, u);
      GoOn(c, s, u, t);
    }
  }

  lemma DecidedStays(c: Config, start: Store, s: State, a: Action)
    requires ValidConfig(c) && Reachable(c, start, s) && Enabled(c, s, a)
    requires Rank(s.orch.phase) >= 4
    ensures Apply(c, s, a).orch.verdict == s.orch.verdict
  {
    ReachableShape(c, start, s);
    StepKeepsVerdict(c, s, a);
  }

  /** Whatever the number of workers and wherever they stand: while the flag is clear as a
      poll begins, a timeout can still be the outcome. */
  lemma TimeoutInReach(c: Config, start: Store, s: State) returns (t: State)
    requires ValidConfig(c) && Reachable(c, start, s) && s.orch.phase == Waiting && !s.sh.done
    ensures Leads(c, s, t) && t.orch.phase == Finished && t.orch.verdict == TimerFired
  {
    Stay(c, s);
    var u := Go(c, s, s, Main(PollDone));
    u := Go(c, s, u, Main(PollTimer(true)));
    t := FromVerdict(c, start, s, u);
  }

  /** When the flag is set as a poll begins, success is the outcome, and it is in reach. */
  lemma SuccessInReach(c: Config, start: Store, s: State) returns (t: State)
    requires ValidConfig(c) && Reachable(c, start, s) && s.orch.phase == Waiting && s.sh.done
    ensures Leads(c, s, t) && t.orch.phase == Finished && !TimedOut(t)
  {
    Stay(c, s);
    var u := Go(c, s, s, Main(PollDone));
    t := FromVerdict(c, start, s, u);
  }

  lemma FromVerdict(c: Config, start: Store, s: State, u: State) returns (t: State)
    requires ValidConfig(c) && Reachable(c, start, s) && Leads(c, s, u) && u.orch.phase == Decided
    ensures Leads(c, s, t) && t.orch.phase == Finished && t.orch.verdict == u.orch.verdict
  {
    var v := StartDrain(c, u);
    GoOn(c, s, u, v);
    GoOn(c, Init(start), s, v);
    t := ReportAfterShutdown(c, start, v);
    GoOn(c, s, v, t);
  }

  // ---- without another step of a worker ----

  /** Has had a job popped for it whose reply has not arrived. */
  function OnTheWay(pc: PC): nat { if pc.InFlight? then 1 else 0 }

  /** From s to t nobody has touched anything but the workers' places and senders. */
  predicate OnlyKilled(s: State, t: State) {
    && t.col == s.col && t.mon == s.mon && t.orch == s.orch && |t.ws| == |s.ws|
    && t.sh == s.sh.(senders := t.sh.senders) && t.log == s.log.(lost := t.log.lost)
    && |t.log.lost| + Total(t.ws, OnTheWay) == |s.log.lost| + Total(s.ws, OnTheWay)
  }

  lemma KillOne(c: Config, s: State, i: nat) returns (t: State)
    requires s.orch.phase == Aborting && i < |s.ws| && Suspended(s.ws[i])
    ensures Leads(c, s, t) && OnlyKilled(s, t) && t.ws == s.ws[i := Gone]
  {
    Stay(c, s);
    t := Go(c, s, s, Kill(i));
    TotalPlace(s.ws, i, Gone, OnTheWay);
  }

  /** Every worker from i on is aborted where it is suspended. */
  lemma {:induction false} KillAll(c: Config, s: State, i: nat) returns (t: State)
    requires s.orch.phase == Aborting && i <= |s.ws|
    requires forall j | 0 <= j < i :: s.ws[j].Gone?
    requires forall j | 0 <= j < |s.ws| :: s.ws[j].Gone? || Suspended(s.ws[j])
    ensures Leads(c, s, t) && OnlyKilled(s, t) && forall j | 0 <= j < |t.ws| :: t.ws[j].Gone?
    decreases |s.ws| - i
  {
    Stay(c, s);
    t := s;
    if i < |s.ws| {
      if !s.ws[i].Gone? {
        t := KillOne(c, s, i);
      }
      var u := KillAll(c, t, i + 1);
      GoOn(c, s, t, u);
      t := u;
    }
  }

  /** Every worker is joined. */
  lemma {:induction false} JoinAll(c: Config, s: State) returns (t: State)
    requires s.orch.phase == Aborting && forall j | 0 <= j < |s.ws| :: s.ws[j].Gone?
    ensures Leads(c, s, t) && AllJoined(t) && t == s.(orch := s.orch.(joined := t.orch.joined))
    decreases Unjoined(|s.ws|, s.orch.joined)
  {
    Stay(c, s);
    t := s;
    if !AllJoined(s) {
      var i: nat :| i < |s.ws| && i !in s.orch.joined;
      JoinOne(|s.ws|, s.orch.joined, i);
      var u := Go(c, s, s, Main(Join(i)));
      t := JoinAll(c, u);
      GoOn(c, s, u, t);
    }
  }

  /** The collector takes in what is buffered, and leaves. */
  lemma {:induction false} CollectAll(c: Config, s: State) returns (t: State)
    requires s.orch.phase == Closing && s.sh.senders == 0 && !s.col.exited
    ensures Leads(c, s, t) && t.col.exited
    ensures t.orch == s.orch && t.ws == s.ws && t.log == s.log && t.sh == s.sh.(chan := [])
    decreases |s.sh.chan|
  {
    Stay(c, s);
    if s.sh.chan == [] {
      t := Go(c, s, s, Collect(Close));
    } else {
      var u := Go(c, s, s, Collect(Receive));
      t := CollectAll(c, u);
      GoOn(c, s, u, t);
    }
  }

  /** Drain timeout, aborts and joins. */
  lemma AbortAll(c: Config, s: State) returns (t: State)
    requires s.orch.phase == Draining
    requires forall j | 0 <= j < |s.ws| :: s.ws[j].Gone? || Suspended(s.ws[j])
    ensures Leads(c, s, t) && t.orch.phase == Closing && t.orch.verdict == s.orch.verdict
    ensures t.sh == s.sh.(senders := t.sh.senders) && t.log == s.log.(lost := t.log.lost)
    ensures |t.log.lost| == |s.log.lost| + Total(s.ws, OnTheWay)
  {
    Stay(c, s);
    var u := Go(c, s, s, Main(DrainTimeout));
    var v := KillAll(c, u, 0);
    GoOn(c, s, u, v);
    TotalZero(v.ws, OnTheWay);
    var w := JoinAll(c, v);
    GoOn(c, s, v, w);
    t := Go(c, s, w, Main(AbortDone));
  }

  lemma ClosingIsReady(c: Config, start: Store, s: State)
    requires ValidConfig(c) && Reachable(c, start, s) && s.orch.phase == Closing
    ensures s.sh.senders == 0 && (s.col.exited ==> s.sh.chan == [])
  {
    ReachableShape(c, start, s);
    GoneMeansNoSenders(s);
  }

  lemma CloseAndReport(c: Config, start: Store, s: State) returns (t: State)
    requires ValidConfig(c) && Reachable(c, start, s) && s.orch.phase == Closing
    ensures Leads(c, s, t) && t.orch.phase == Finished && t.orch.verdict == s.orch.verdict
    ensures t.log == s.log && t.sh == s.sh.(chan := [])
    ensures t.orch.report.total == s.sh.completed
  {
    ClosingIsReady(c, start, s);
    Stay(c, s);
    var u := s;
    if !s.col.exited {
      u := CollectAll(c, s);
    }
    t := WriteReport(c, u);
    GoOn(c, s, u, t);
  }

  /** If the drain finds every worker hanging at a suspension point, however many there
      are, the trial can still end with the count it has: no job is popped, counted or read
      any more, and exactly the jobs on the way to a worker are lost. */
  lemma HangingWorkersAborted(c: Config, start: Store, s: State) returns (t: State)
    requires ValidConfig(c) && Reachable(c, start, s) && s.orch.phase == Draining
    requires forall j | 0 <= j < |s.ws| :: s.ws[j].Gone? || Suspended(s.ws[j])
    ensures Leads(c, s, t) && t.orch.phase == Finished && t.orch.verdict == s.orch.verdict
    ensures t.sh.store == s.sh.store && t.orch.report.total == s.sh.completed
    ensures t.log == s.log.(lost := t.log.lost)
    ensures |t.log.lost| == |s.log.lost| + Total(s.ws, OnTheWay)
  {
    var u := AbortAll(c, s);
    GoOn(c, Init(start), s, u);
    t := CloseAndReport(c, start, u);
    GoOn(c, s, u, t);
  }
}
