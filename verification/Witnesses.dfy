// Where the code falls short of what its comments promise, shown by schedules, and the
// exact condition under which it does not.
module Witnesses {
  import opened Broker
  import opened Protocol
  import opened Invariants
  import opened Schedules

  // ---- throughput and error series of different lengths ----

  /** The monitor is not in the middle of pushing a tick's two samples. */
  predicate Calm(pc: MonPC) {
    pc.Asleep? || pc.ErrsPushed? || pc.Requested? || pc.Answered? || pc.Stopped?
  }

  /** What a report begun while the monitor is calm goes on to show. */
  ghost predicate CalmReport(s: State) {
    var r, mon, rank := s.orch.report, s.mon, Rank(s.orch.phase);
    && rank >= 9 && Calm(mon.pc) && |mon.errs| == |mon.tput|
    && (rank >= 10 ==> r.tput == mon.tput)
    && (rank >= 11 ==> |r.errs| == |r.tput|)
  }

  lemma MainKeepsCalmReport(c: Config, s: State, m: MainEvent)
    requires CalmReport(s) && CanMain(c, s, m)
    ensures CalmReport(ApplyMain(c, s, m))
  {}

  lemma KeepsCalmReport(c: Config, s: State, a: Action)
    requires CalmReport(s) && Enabled(c, s, a)
    ensures CalmReport(Apply(c, s, a))
  {
    match a
    case Work(_, _) =>
    case Kill(_) =>
    case Main(m) => MainKeepsCalmReport(c, s, m);
    case Collect(_) =>
    case Tick(_) =>
  }

  lemma {:induction false} RunKeepsCalmReport(c: Config, s: State, acts: seq<Action>, t: State)
    requires CalmReport(s) && Runs(c, s, acts, t)
    ensures CalmReport(t)
    decreases |acts|
  {
    Unroll(c, s, acts, t);
    if acts != [] {
      KeepsCalmReport(c, s, acts[0]);
      RunKeepsCalmReport(c, Apply(c, s, acts[0]), acts[1..], t);
    }
  }

  lemma FinishTick(c: Config, s: State) returns (t: State)
    requires s.orch.phase == GotTput && (s.mon.pc.Awake? || s.mon.pc.Loaded?)
    ensures Leads(c, s, t)
    ensures t.orch == s.orch && |t.mon.errs| == |s.mon.errs| + 1
  {
    Stay(c, s);
    t := s;
    if s.mon.pc.Awake? {
      t := Go(c, s, t, Tick(LoadTput));
    }
    t := Go(c, s, t, Tick(PushTput));
    t := Go(c, s, t, Tick(LoadErrs));
    t := Go(c, s, t, Tick(PushErrs));
  }

  /** The last two reads, with nothing between them. */
  lemma ReadRest(c: Config, s: State) returns (t: State)
    requires s.orch.phase == GotTput
    ensures Leads(c, s, t)
    ensures t == s.(orch := s.orch.(phase := Finished,
                      report := s.orch.report.(errs := s.mon.errs, lat := s.mon.lat)))
  {
    Stay(c, s);
    t := Go(c, s, s, Main(ReadErrs));
    t := Go(c, s, t, Main(ReadLat));
  }

  /** A monitor caught in the middle can leave the report with series of two lengths. */
  lemma UnevenReport(c: Config, s: State) returns (t: State)
    requires s.orch.phase == GotTotals && InStep(s) && !Calm(s.mon.pc) && !s.mon.pc.Unborn?
    ensures Leads(c, s, t) && t.orch.phase == Finished && !SeriesAgree(t)
  {
    Stay(c, s);
    var u := Go(c, s, s, Main(ReadTput));
    if !BetweenPushes(s.mon.pc) {
      var v := FinishTick(c, u);
      GoOn(c, s, u, v);
      u := v;
    }
    t := ReadRest(c, u);
    GoOn(c, s, u, t);
  }

  ghost predicate SeriesAgree(s: State) { |s.orch.report.errs| == |s.orch.report.tput| }

  ghost predicate AlwaysAgree(c: Config, s: State) {
    forall t | Leads(c, s, t) && t.orch.phase == Finished :: SeriesAgree(t)
  }

  lemma CalmAgrees(c: Config, s: State)
    requires s.orch.phase == GotTotals && InStep(s) && Calm(s.mon.pc)
    ensures AlwaysAgree(c, s)
  {
    forall t | Leads(c, s, t) && t.orch.phase == Finished ensures SeriesAgree(t) {
      var acts :| Runs(c, s, acts, t);
      RunKeepsCalmReport(c, s, acts, t);
    }
  }

  /** The reported throughput and error series are sure to have one length exactly when
      the monitor, which is aborted but not awaited, is not between its two pushes at the
      moment the first of them is read. */
  lemma SeriesAgreeExactly(c: Config, start: Store, s: State)
    requires ValidConfig(c) && Reachable(c, start, s) && s.orch.phase == GotTotals
    ensures Calm(s.mon.pc) <==> AlwaysAgree(c, s)
  {
    ReachableInStep(c, start, s);
    if Calm(s.mon.pc) {
      CalmAgrees(c, s);
    } else {
      var t := UnevenReport(c, s);
    }
  }

  // ---- a latency series shorter than the throughput series ----

  /** The monitor has no tick left to push, and no window in hand to store. */
  predicate Settled(pc: MonPC) { !pc.Unborn? && !pc.Awake? && !pc.Loaded? && !pc.Answered? }

  /** What a report begun while the monitor is settled goes on to show: latency `gap`
      samples behind throughput. */
  ghost predicate GapReport(s: State, gap: nat) {
    var r, mon, rank := s.orch.report, s.mon, Rank(s.orch.phase);
    && rank >= 9 && s.col.exited && Settled(mon.pc) && |mon.tput| == |mon.lat| + gap
    && (rank >= 10 ==> r.tput == mon.tput)
    && (rank >= 12 ==> |r.tput| == |r.lat| + gap)
  }

  lemma MainKeepsGapReport(c: Config, s: State, gap: nat, m: MainEvent)
    requires GapReport(s, gap) && CanMain(c, s, m)
    ensures GapReport(ApplyMain(c, s, m), gap)
  {}

  lemma TickKeepsGapReport(s: State, gap: nat, m: MonEvent)
    requires GapReport(s, gap) && CanTick(s, m)
    ensures GapReport(s.(mon := ApplyTick(s, m)), gap)
  {}

  lemma KeepsGapReport(c: Config, s: State, gap: nat, a: Action)
    requires GapReport(s, gap) && Enabled(c, s, a)
    ensures GapReport(Apply(c, s, a), gap)
  {
    match a
    case Work(_, _) =>
    case Kill(_) =>
    case Main(m) => MainKeepsGapReport(c, s, gap, m);
    case Collect(_) => assert false;
    case Tick(m) => TickKeepsGapReport(s, gap, m);
  }

  lemma {:induction false} RunKeepsGapReport(
      c: Config, s: State, gap: nat, acts: seq<Action>, t: State)
    requires GapReport(s, gap) && Runs(c, s, acts, t)
    ensures GapReport(t, gap)
    decreases |acts|
  {
    Unroll(c, s, acts, t);
    if acts != [] {
      KeepsGapReport(c, s, gap, acts[0]);
      RunKeepsGapReport(c, Apply(c, s, acts[0]), gap, acts[1..], t);
    }
  }

  ghost predicate GapIs(s: State, gap: nat) {
    |s.orch.report.tput| == |s.orch.report.lat| + gap
  }

  ghost predicate AlwaysGap(c: Config, s: State, gap: nat) {
    forall t | Leads(c, s, t) && t.orch.phase == Finished :: GapIs(t, gap)
  }

  /** All reads at once: the report shows what the monitor has. */
  lemma ReadNow(c: Config, s: State) returns (t: State)
    requires s.orch.phase == GotTotals
    ensures Leads(c, s, t)
    ensures t == s.(orch := s.orch.(phase := Finished,
                      report := s.orch.report.(tput := s.mon.tput, errs := s.mon.errs,
                                               lat := s.mon.lat)))
  {
    Stay(c, s);
    var u := Go(c, s, s, Main(ReadTput));
    t := ReadRest(c, u);
    GoOn(c, s, u, t);
  }

  /** An unsettled monitor can still change the gap by one before the reads. */
  lemma GapMoves(c: Config, s: State) returns (t: State)
    requires s.orch.phase == GotTotals && !Settled(s.mon.pc) && !s.mon.pc.Unborn?
    ensures Leads(c, s, t) && t.orch == s.orch
    ensures |t.mon.tput| - |t.mon.lat| != |s.mon.tput| - |s.mon.lat|
  {
    Stay(c, s);
    t := s;
    if s.mon.pc.Answered? {
      t := Go(c, s, t, Tick(StoreReply));
    } else {
      if s.mon.pc.Awake? {
        t := Go(c, s, t, Tick(LoadTput));
      }
      t := Go(c, s, t, Tick(PushTput));
    }
  }

  lemma SettledGap(c: Config, s: State, gap: nat)
    requires s.orch.phase == GotTotals && s.col.exited && Settled(s.mon.pc)
    requires |s.mon.tput| == |s.mon.lat| + gap
    ensures AlwaysGap(c, s, gap)
  {
    forall t | Leads(c, s, t) && t.orch.phase == Finished ensures GapIs(t, gap) {
      var acts :| Runs(c, s, acts, t);
      RunKeepsGapReport(c, s, gap, acts, t);
    }
  }

  lemma OtherGap(c: Config, s: State, gap: nat) returns (t: State)
    requires s.orch.phase == GotTotals && !s.mon.pc.Unborn?
    requires !Settled(s.mon.pc) || |s.mon.tput| != |s.mon.lat| + gap
    ensures Leads(c, s, t) && t.orch.phase == Finished && !GapIs(t, gap)
  {
    if |s.mon.tput| != |s.mon.lat| + gap {
      t := ReadNow(c, s);
    } else {
      var u := GapMoves(c, s);
      t := ReadNow(c, u);
      GoOn(c, s, u, t);
    }
  }

  /** The reported latency series is sure to be `gap` samples shorter than the throughput
      series exactly when, as the reads begin, it is behind by that much and the monitor
      is settled: not woken and still to push, and without a window in hand. */
  lemma LatencyGapExactly(c: Config, start: Store, s: State, gap: nat)
    requires ValidConfig(c) && Reachable(c, start, s) && s.orch.phase == GotTotals
    ensures Settled(s.mon.pc) && |s.mon.tput| == |s.mon.lat| + gap <==> AlwaysGap(c, s, gap)
  {
    ReachableShape(c, start, s);
    if Settled(s.mon.pc) && |s.mon.tput| == |s.mon.lat| + gap {
      SettledGap(c, s, gap);
    } else {
      var t := OtherGap(c, s, gap);
    }
  }

  // ---- a monitor caught in the middle of a tick ----

  lemma OnlyWorkerJoined(s: State)
    requires |s.ws| == 1 && s.orch.joined == [0]
    ensures AllJoined(s)
  {}

  /** A trial that times out just after its monitor has woken up. */
  lemma WokenAtTimeout(c: Config, start: Store) returns (s: State)
    requires ValidConfig(c) && c.workers == 1
    ensures Reachable(c, start, s) && s.orch.phase == Decided && s.orch.joined == []
    ensures s.ws == [Fresh] && s.mon.pc == Awake && s.sh.chan == [] && !s.col.exited
    ensures s.sh.senders == 2
  {
    InitReachable(c, start);
    s := Reach(c, start, Init(start), Main(Spawn));
    s := Reach(c, start, s, Main(FinishSpawn));
    s := Reach(c, start, s, Tick(WakeUp));
    s := Reach(c, start, s, Main(PollDone));
    s := Reach(c, start, s, Main(PollTimer(true)));
  }

  lemma WokenAtAbort(c: Config, start: Store) returns (s: State)
    requires ValidConfig(c) && c.workers == 1
    ensures Reachable(c, start, s) && s.orch.phase == Aborting && s.orch.joined == [0]
    ensures |s.ws| == 1 && s.mon.pc == Awake && s.sh.chan == [] && !s.col.exited
    ensures s.sh.senders == 0
  {
    s := WokenAtTimeout(c, start);
    s := Reach(c, start, s, Main(AbortMonitor));
    s := Reach(c, start, s, Main(SetShutdown));
    s := Reach(c, start, s, Main(DropSentinel));
    s := Reach(c, start, s, Main(DrainTimeout));
    s := Reach(c, start, s, Kill(0));
    s := Reach(c, start, s, Main(Join(0)));
  }

  /** The monitor can indeed be caught in the middle of a tick by the report. */
  lemma CaughtMidTick(c: Config, start: Store) returns (s: State)
    requires ValidConfig(c) && c.workers == 1
    ensures Reachable(c, start, s) && s.orch.phase == GotTotals && s.mon.pc == Awake
    ensures !Calm(s.mon.pc)
  {
    s := WokenAtAbort(c, start);
    OnlyWorkerJoined(s);
    s := Reach(c, start, s, Main(AbortDone));
    s := Reach(c, start, s, Collect(Close));
    s := Reach(c, start, s, Main(TakeHist));
    s := Reach(c, start, s, Main(ReadTotals));
  }
}
