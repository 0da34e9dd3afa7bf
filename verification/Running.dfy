// What becomes of a trial under a given schedule.
module Running {
  import opened Protocol
  import opened Schedules

  predicate Over(s: State) { s.orch.phase == Finished || s.orch.phase == Failed }

  /** The trial follows the schedule until it is over, or the schedule is, or asks for a
      step that cannot be taken. */
  function Play(c: Config, s: State, schedule: seq<Action>): State
    decreases |schedule|
  {
    if schedule == [] || Over(s) || !Enabled(c, s, schedule[0]) then s
    else Play(c, Apply(c, s, schedule[0]), schedule[1..])
  }

  predicate StopsAt(c: Config, schedule: seq<Action>, k: nat, t: State) {
    k <= |schedule| && (k == |schedule| || Over(t) || !Enabled(c, t, schedule[k]))
  }

  /** `t` is where the first steps of the schedule lead, as far as it can be followed. */
  ghost predicate Executes(c: Config, s: State, schedule: seq<Action>, t: State) {
    exists k: nat :: StopsAt(c, schedule, k, t) && Runs(c, s, schedule[..k], t)
  }

  /** Some first steps of the schedule bring the trial to its report. */
  ghost predicate RunsToReport(c: Config, s: State, schedule: seq<Action>) {
    exists k: nat, t ::
      k <= |schedule| && Runs(c, s, schedule[..k], t) && t.orch.phase == Finished
  }

  lemma FirstOf(schedule: seq<Action>, k: nat)
    requires schedule != [] && k < |schedule|
    ensures schedule[..k + 1][0] == schedule[0]
    ensures schedule[..k + 1][1..] == schedule[1..][..k]
  {}

  /** A step first, and then what the rest of the schedule makes of it. */
  lemma RunsOn(c: Config, s: State, schedule: seq<Action>, k: nat, t: State)
    requires schedule != [] && k < |schedule| && Enabled(c, s, schedule[0])
    ensures Runs(c, s, schedule[..k + 1], t)
       <==> Runs(c, Apply(c, s, schedule[0]), schedule[1..][..k], t)
  {
    FirstOf(schedule, k);
    RunsFirst(c, s, schedule[..k + 1], t);
  }

  lemma StopsOn(c: Config, schedule: seq<Action>, k: nat, t: State)
    requires schedule != [] && StopsAt(c, schedule[1..], k, t)
    ensures StopsAt(c, schedule, k + 1, t)
  {}

  lemma {:induction false} PlayExecutes(c: Config, s: State, schedule: seq<Action>)
    ensures Executes(c, s, schedule, Play(c, s, schedule))
    decreases |schedule|
  {
    var t := Play(c, s, schedule);
    if schedule == [] || Over(s) || !Enabled(c, s, schedule[0]) {
      RunsNone(c, s, s);
      assert StopsAt(c, schedule, 0, s) && schedule[..0] == [];
    } else {
      var u, rest := Apply(c, s, schedule[0]), schedule[1..];
      PlayExecutes(c, u, rest);
      var k: nat :| StopsAt(c, rest, k, t) && Runs(c, u, rest[..k], t);
      StopsOn(c, schedule, k, t);
      RunsOn(c, s, schedule, k, t);
      assert Runs(c, s, schedule[..k + 1], t);
    }
  }

  lemma {:induction false} ReportIsPlayed(
      c: Config, s: State, schedule: seq<Action>, k: nat, t: State)
    requires k <= |schedule| && Runs(c, s, schedule[..k], t) && t.orch.phase == Finished
    ensures Play(c, s, schedule).orch.phase == Finished
    decreases |schedule|
  {
    if k == 0 {
      assert schedule[..0] == [];
      RunsNone(c, s, t);
    } else {
      Unroll(c, s, schedule[..k], t);
      if !Over(s) {
        RunsOn(c, s, schedule, k - 1, t);
        ReportIsPlayed(c, Apply(c, s, schedule[0]), schedule[1..], k - 1, t);
      }
    }
  }

  /** Playing a schedule ends in a report exactly when the schedule has one to reach. */
  lemma PlayReports(c: Config, s: State, schedule: seq<Action>)
    ensures Play(c, s, schedule).orch.phase == Finished <==> RunsToReport(c, s, schedule)
  {
    var t := Play(c, s, schedule);
    PlayExecutes(c, s, schedule);
    var n: nat :| StopsAt(c, schedule, n, t) && Runs(c, s, schedule[..n], t);
    if RunsToReport(c, s, schedule) {
      var k: nat, u :| k <= |schedule| && Runs(c, s, schedule[..k], u) && u.orch.phase == Finished;
      ReportIsPlayed(c, s, schedule, k, u);
    }
  }
}
