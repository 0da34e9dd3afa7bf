// Trials of one worker and one job, run to their reports: a timeout that was none, in two
// ways; a success whose only sample the histogram refused; and a wrong label.
module Endings {
  import opened Wrappers
  import opened Broker
  import opened Protocol
  import opened Readings
  import opened Schedules
  import opened Witnesses

  // ---- the one worker ----

  lemma GoWork(c: Config, start: State, s: State, e: Event) returns (t: State)
    requires Leads(c, start, s) && s.orch.phase != Failed
    requires |s.ws| == 1 && Can(c, Local(s.sh, s.log, s.ws[0]), e)
    ensures Leads(c, start, t)
    ensures var l := Act(c, Local(s.sh, s.log, s.ws[0]), e);
            t == State(l.sh, l.log, [l.pc], s.col, s.mon, s.orch)
  {
    t := Go(c, start, s, Work(0, e));
    assert t.ws == [t.ws[0]];
  }

  /** A trial for one worker and one job, of which there is one. */
  ghost predicate SingleJob(c: Config, start: Store) {
    ValidConfig(c) && c.workers == 1 && c.target == 1 && Ready(start, c.keys)
  }

  /** The worker has the job in hand; nothing else has happened. */
  ghost predicate InHandOnly(c: Config, start: Store, s: State)
    requires SingleJob(c, start)
  {
    && s.orch.verdict == Undecided && s.orch.joined == [] && s.sh.completed == 0
    && !s.sh.done && !s.sh.shutdown && s.sh.senders == 2 && s.sh.chan == []
    && s.ws == [Handling(Popped(start, c.keys))]
    && s.col == Init(start).col && s.log.sent == []
  }

  lemma TakeTheJob(c: Config, start: Store) returns (s: State)
    requires SingleJob(c, start)
    ensures Leads(c, Init(start), s) && s.orch == Init(start).orch
    ensures InHandOnly(c, start, s.(sh := s.sh.(senders := 2))) && s.sh.senders == 3
    ensures s.mon == Init(start).mon
  {
    Stay(c, Init(start));
    s := Go(c, Init(start), Init(start), Main(Spawn));
    s := GoWork(c, Init(start), s, Start);
    s := GoWork(c, Init(start), s, CheckShutdown);
    s := GoWork(c, Init(start), s, CheckTarget);
    s := GoWork(c, Init(start), s, ServerPop);
    s := GoWork(c, Init(start), s, Deliver);
  }

  lemma JobInHand(c: Config, start: Store) returns (s: State)
    requires SingleJob(c, start)
    ensures Reachable(c, start, s) && s.orch.phase == Waiting && InHandOnly(c, start, s)
  {
    s := TakeTheJob(c, start);
    s := Go(c, Init(start), s, Main(FinishSpawn));
  }

  /** The worker reads its job, counts it, signals and leaves. */
  lemma FinishJob(c: Config, s: State, now: nat) returns (t: State)
    requires c.target == 1 && s.orch.phase != Failed && s.sh.completed == 0
    requires |s.ws| == 1 && s.ws[0].Handling?
    ensures Leads(c, s, t) && t.orch == s.orch && t.mon == s.mon && t.col == s.col
    ensures t.ws == [Gone] && t.sh.completed == 1 && t.sh.done
    ensures t.sh.senders == s.sh.senders - 1 && t.sh.shutdown == s.sh.shutdown
    ensures t.sh.chan == s.sh.chan + SampleOf(c, Reading(s.ws[0].job, now))
  {
    Stay(c, s);
    t := GoWork(c, s, s, Decode(now));
    t := GoWork(c, s, t, Increment);
    t := GoWork(c, s, t, Signal);
    t := GoWork(c, s, t, CheckShutdown);
    if !s.sh.shutdown {
      t := GoWork(c, s, t, CheckTarget);
    }
  }

  // ---- from the verdict to the report ----

  /** The monitor is aborted, the shutdown flag set and the sentinel dropped. */
  lemma StartDrain(c: Config, s: State) returns (t: State)
    requires s.orch.phase == Decided
    ensures Leads(c, s, t)
    ensures t == s.(orch := s.orch.(phase := Draining),
                    sh := s.sh.(shutdown := true, senders := s.sh.senders - 1))
  {
    Stay(c, s);
    t := Go(c, s, s, Main(AbortMonitor));
    t := Go(c, s, t, Main(SetShutdown));
    t := Go(c, s, t, Main(DropSentinel));
  }

  /** The drain finds the worker gone. */
  lemma EndDrain(c: Config, s: State) returns (t: State)
    requires s.orch.phase == Draining && s.ws == [Gone] && s.orch.joined == []
    ensures Leads(c, s, t) && t == s.(orch := s.orch.(phase := Closing, joined := [0]))
  {
    Stay(c, s);
    t := Go(c, s, s, Main(Join(0)));
    OnlyWorkerJoined(t);
    t := Go(c, s, t, Main(DrainDone));
  }

  /** The collector takes in the last sample, if there is one, and leaves. */
  lemma EndCollector(c: Config, s: State) returns (t: State)
    requires s.orch.phase == Closing && s.sh.senders == 0 && |s.sh.chan| <= 1 && !s.col.exited
    requires s.sh.chan != [] ==> s.sh.chan[0] >= 1
    ensures Leads(c, s, t) && t.col.exited && t.orch == s.orch
    ensures t.sh == s.sh.(chan := [])
    ensures t.col.hist == if s.sh.chan == [] then s.col.hist
                          else Record(c.cap, s.col.hist, s.sh.chan[0])
  {
    Stay(c, s);
    t := s;
    if s.sh.chan != [] {
      t := Go(c, s, t, Collect(Receive));
    }
    t := Go(c, s, t, Collect(Close));
  }

  lemma WriteReport(c: Config, s: State) returns (t: State)
    requires s.orch.phase == Closing && s.col.exited
    ensures Leads(c, s, t) && t == s.(orch := t.orch)
    ensures t.orch.phase == Finished && t.orch.verdict == s.orch.verdict
    ensures t.orch.report.hist == s.col.hist && t.orch.report.total == s.sh.completed
  {
    Stay(c, s);
    var u := Go(c, s, s, Main(TakeHist));
    u := Go(c, s, u, Main(ReadTotals));
    t := ReadNow(c, u);
    GoOn(c, s, u, t);
  }

  /** From a verdict on, with the worker gone and at most one sample waiting. */
  lemma Conclude(c: Config, s: State) returns (t: State)
    requires s.orch.phase == Draining && s.ws == [Gone] && s.orch.joined == []
    requires s.sh.senders == 0 && !s.col.exited
    requires |s.sh.chan| <= 1 && (s.sh.chan != [] ==> s.sh.chan[0] >= 1)
    ensures Leads(c, s, t) && t.orch.phase == Finished && t.orch.verdict == s.orch.verdict
    ensures t.orch.report.total == s.sh.completed
    ensures t.orch.report.hist == if s.sh.chan == [] then s.col.hist
                                  else Record(c.cap, s.col.hist, s.sh.chan[0])
  {
    var u := EndDrain(c, s);
    var v := EndCollector(c, u);
    GoOn(c, s, u, v);
    t := WriteReport(c, v);
    GoOn(c, s, v, t);
  }

  /** The flag is seen and the trial concluded. */
  lemma ConcludeDone(c: Config, start: Store, s: State) returns (t: State)
    requires Reachable(c, start, s) && s.orch.phase == Waiting && s.orch.joined == []
    requires s.sh.done && s.sh.senders == 1 && s.ws == [Gone] && !s.col.exited
    requires |s.sh.chan| <= 1 && (s.sh.chan != [] ==> s.sh.chan[0] >= 1)
    ensures Reachable(c, start, t) && t.orch.phase == Finished && !TimedOut(t)
    ensures t.orch.report.total == s.sh.completed
    ensures t.orch.report.hist == if s.sh.chan == [] then s.col.hist
                                  else Record(c.cap, s.col.hist, s.sh.chan[0])
  {
    var u := Go(c, Init(start), s, Main(PollDone));
    var v := StartDrain(c, u);
    GoOn(c, Init(start), u, v);
    t := Conclude(c, v);
    GoOn(c, Init(start), v, t);
  }

  // ---- a sample too large ----

  /** A trial can reach its target in time and report a job without its latency: the job
      was built more than cap microseconds before it was read. */
  lemma SampleDropped(c: Config, start: Store, enqueued: nat) returns (t: State)
    requires SingleJob(c, start) && c.decode(Popped(start, c.keys)) == Some(enqueued)
    ensures Reachable(c, start, t) && t.orch.phase == Finished && !TimedOut(t)
    ensures t.orch.report.total == 1 && t.orch.report.hist == []
  {
    var u := JobInHand(c, start);
    var v := FinishJob(c, u, enqueued + 1000 * (c.cap + 1));
    GoOn(c, Init(start), u, v);
    assert v.sh.chan == [c.cap + 1];
    t := ConcludeDone(c, start, v);
  }

  // ---- a timeout that was none ----

  /** The timer fires in the poll that has just found the flag clear. */
  lemma TimerFires(c: Config, start: Store, s: State) returns (t: State)
    requires Reachable(c, start, s) && s.orch.phase == SawNotDone
    ensures Reachable(c, start, t)
    ensures t == s.(orch := s.orch.(phase := Decided, verdict := TimerFired))
  {
    t := Go(c, Init(start), s, Main(PollTimer(true)));
  }

  lemma ConcludeTimeout(c: Config, start: Store, s: State) returns (t: State)
    requires Reachable(c, start, s) && s.orch.phase == Draining && s.orch.verdict == TimerFired
    requires s.orch.joined == [] && s.sh.senders == 0 && s.ws == [Gone] && !s.col.exited
    requires |s.sh.chan| <= 1 && (s.sh.chan != [] ==> s.sh.chan[0] >= 1)
    ensures Leads(c, s, t) && Reachable(c, start, t) && t.orch.phase == Finished
    ensures t.orch.verdict == TimerFired && t.orch.report.total == s.sh.completed
  {
    t := Conclude(c, s);
    GoOn(c, Init(start), s, t);
  }

  /** The last job is counted and signalled between the poll's look at the flag and its
      look at the timer: the target has been reached when the timeout is declared. */
  lemma TimeoutAfterTarget(c: Config, start: Store) returns (s: State, t: State)
    requires SingleJob(c, start)
    ensures Reachable(c, start, s) && s.orch.phase == Decided && s.orch.verdict == TimerFired
    ensures s.sh.completed >= c.target && s.sh.done
    ensures Leads(c, s, t) && t.orch.phase == Finished && TimedOut(t)
    ensures t.orch.report.total >= c.target
  {
    var u := JobInHand(c, start);
    u := Go(c, Init(start), u, Main(PollDone));
    var v := FinishJob(c, u, 0);
    GoOn(c, Init(start), u, v);
    s := TimerFires(c, start, v);
    var w := StartDrain(c, s);
    GoOn(c, Init(start), s, w);
    t := ConcludeTimeout(c, start, w);
    GoOn(c, s, w, t);
  }

  /** A timeout declared short of the target can still be reported with the target met:
      a job in hand is counted while the workers are drained. */
  lemma TargetInDrain(c: Config, start: Store) returns (s: State, t: State)
    requires SingleJob(c, start)
    ensures Reachable(c, start, s) && s.orch.phase == Draining && s.orch.verdict == TimerFired
    ensures s.sh.shutdown && s.sh.completed < c.target && !s.sh.done
    ensures Leads(c, s, t) && t.orch.phase == Finished && TimedOut(t)
    ensures t.orch.report.total >= c.target
  {
    var u := JobInHand(c, start);
    u := Go(c, Init(start), u, Main(PollDone));
    u := TimerFires(c, start, u);
    s := StartDrain(c, u);
    GoOn(c, Init(start), u, s);
    var w := FinishJob(c, s, 0);
    GoOn(c, Init(start), s, w);
    t := ConcludeTimeout(c, start, w);
    GoOn(c, s, w, t);
  }

  // ---- a wrong label ----

  /** If the last job is counted and signalled between the poll's look at the flag and its
      look at the workers, a trial that reached its target is labelled "exited before the
      target" and reported as timed out, in spite of the biased order. */
  lemma CompleteTrialMislabelled(c: Config, start: Store) returns (s: State)
    requires SingleJob(c, start)
    ensures Reachable(c, start, s)
    ensures s.orch.verdict == AllExited && TimedOut(s) && s.sh.completed >= c.target && s.sh.done
  {
    var u := JobInHand(c, start);
    u := Go(c, Init(start), u, Main(PollDone));
    u := Go(c, Init(start), u, Main(PollTimer(false)));
    s := FinishJob(c, u, 0);
    GoOn(c, Init(start), u, s);
    s := Go(c, Init(start), s, Main(Join(0)));
    OnlyWorkerJoined(s);
    s := Go(c, Init(start), s, Main(PollAllExited));
  }
}
