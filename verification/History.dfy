// What a trial's verdict, flags and counters say about the steps that have been taken.
module History {
  import opened Broker
  import opened Protocol
  import opened Invariants
  import opened Schedules
  import opened Theorems

  // ---- the verdict ----

  /** The verdict that a step gives, if it gives one: a poll that finds the flag set, a
      timer that has fired, a set of workers found to have exited. */
  function Gives(s: State, a: Action): Verdict {
    if a == Main(PollDone) && s.sh.done then TargetReached
    else if a == Main(PollTimer(true)) then TimerFired
    else if a == Main(PollAllExited) then AllExited
    else Undecided
  }

  lemma MainGives(c: Config, s: State, m: MainEvent)
    requires CanMain(c, s, m)
    ensures ApplyMain(c, s, m).orch.verdict
         == if Gives(s, Main(m)) != Undecided then Gives(s, Main(m)) else s.orch.verdict
    ensures Gives(s, Main(m)) != Undecided ==> Rank(s.orch.phase) < 2
  {}

  lemma StepGives(c: Config, s: State, a: Action)
    requires Shape(c, s) && Enabled(c, s, a)
    ensures Apply(c, s, a).orch.verdict
         == if Gives(s, a) != Undecided then Gives(s, a) else s.orch.verdict
    ensures Gives(s, a) != Undecided ==> s.orch.verdict == Undecided
  {
    match a
    case Work(_, _) =>
    case Kill(_) =>
    case Main(m) => MainGives(c, s, m);
    case Collect(_) =>
    case Tick(_) =>
  }

  /** Among the first n steps is one that gives the verdict v. */
  ghost predicate Given(trace: seq<State>, acts: seq<Action>, n: nat, v: Verdict)
    requires n <= |acts| < |trace|
  {
    exists k | 0 <= k < n :: Gives(trace[k], acts[k]) == v
  }

  lemma {:induction false} TraceInv(
      c: Config, start: Store, acts: seq<Action>, t: State, trace: seq<State>, n: nat)
    requires ValidConfig(c) && IsTrace(c, Init(start), acts, t, trace) && n <= |acts|
    ensures Inv(c, start, trace[n])
  {
    if n == 0 {
      InitInv(c, start);
    } else {
      TraceInv(c, start, acts, t, trace, n - 1);
      assert StepAt(c, trace, acts, n - 1);
      StepInv(c, start, trace[n - 1], acts[n - 1]);
    }
  }

  lemma {:induction false} TraceGives(
      c: Config, start: Store, acts: seq<Action>, t: State, trace: seq<State>, n: nat, v: Verdict)
    requires ValidConfig(c) && IsTrace(c, Init(start), acts, t, trace) && n <= |acts|
    requires v != Undecided
    ensures trace[n].orch.verdict == v <==> Given(trace, acts, n, v)
  {
    if n > 0 {
      TraceGives(c, start, acts, t, trace, n - 1, v);
      TraceShape(c, start, acts, t, trace, n - 1);
      assert StepAt(c, trace, acts, n - 1);
      StepGives(c, trace[n - 1], acts[n - 1]);
      if Given(trace, acts, n - 1, v) {
        var k :| 0 <= k < n - 1 && Gives(trace[k], acts[k]) == v;
      }
    }
  }

  lemma TraceShape(c: Config, start: Store, acts: seq<Action>, t: State, trace: seq<State>, n: nat)
    requires ValidConfig(c) && IsTrace(c, Init(start), acts, t, trace) && n <= |acts|
    ensures Shape(c, trace[n])
  {
    TraceInv(c, start, acts, t, trace, n);
  }

  /** The verdict is TargetReached exactly if some poll began with the flag set, TimerFired
      exactly if the timer was found to have fired, AllExited exactly if all workers were
      found to have exited; for any number of workers and any schedule. */
  lemma VerdictExactly(c: Config, start: Store, acts: seq<Action>, s: State, trace: seq<State>)
    requires ValidConfig(c) && IsTrace(c, Init(start), acts, s, trace)
    ensures s.orch.verdict == TargetReached
       <==> exists k | 0 <= k < |acts| :: acts[k] == Main(PollDone) && trace[k].sh.done
    ensures !TimedOut(s) <==> s.orch.verdict == TargetReached
    ensures s.orch.verdict == TimerFired
       <==> exists k | 0 <= k < |acts| :: acts[k] == Main(PollTimer(true))
    ensures s.orch.verdict == AllExited
       <==> exists k | 0 <= k < |acts| :: acts[k] == Main(PollAllExited)
  {
    TraceGives(c, start, acts, s, trace, |acts|, TargetReached);
    TraceGives(c, start, acts, s, trace, |acts|, TimerFired);
    TraceGives(c, start, acts, s, trace, |acts|, AllExited);
    forall k | 0 <= k < |acts|
      ensures Gives(trace[k], acts[k]) == TargetReached
         <==> acts[k] == Main(PollDone) && trace[k].sh.done
      ensures Gives(trace[k], acts[k]) == TimerFired <==> acts[k] == Main(PollTimer(true))
      ensures Gives(trace[k], acts[k]) == AllExited <==> acts[k] == Main(PollAllExited)
    {}
  }

  /** A poll that finds the flag set ends the trial as not timed out, whatever happens then. */
  lemma PollWithFlagSucceeds(c: Config, start: Store, s: State, acts: seq<Action>, t: State)
    requires ValidConfig(c) && Reachable(c, start, s) && s.orch.phase == Waiting && s.sh.done
    requires Runs(c, s, acts, t) && acts != [] && acts[0] == Main(PollDone)
    ensures t.orch.verdict == TargetReached && !TimedOut(t)
  {
    ReachableInv(c, start, s);
    Unroll(c, s, acts, t);
    StepInv(c, start, s, acts[0]);
    FlagDecides(c, s);
    VerdictStays(c, start, Apply(c, s, acts[0]), acts[1..], t);
  }

  lemma FlagDecides(c: Config, s: State)
    requires Enabled(c, s, Main(PollDone)) && s.sh.done
    ensures Apply(c, s, Main(PollDone)).orch.verdict == TargetReached
  {}

  // ---- the counters and flags ----

  /** How many of the steps are of the wanted kind. */
  function CountOf(acts: seq<Action>, wanted: Action -> bool): nat {
    if acts == [] then 0
    else CountOf(acts[..|acts| - 1], wanted) + if wanted(acts[|acts| - 1]) then 1 else 0
  }

  predicate Increments(a: Action) { a.Work? && a.e.Increment? }

  predicate FailedPop(a: Action) { a.Work? && a.e.PopTransient? }

  predicate Reads(a: Action) { a.Work? && a.e.Decode? }

  predicate Pops(a: Action) { a.Work? && a.e.ServerPop? }

  predicate Signals(a: Action) { a.Work? && a.e.Signal? }

  /** The readings that found no marker. */
  function Unreadable(c: Config, readings: seq<Reading>): nat {
    if readings == [] then 0
    else
      Unreadable(c, readings[..|readings| - 1])
      + if c.decode(readings[|readings| - 1].job).None? then 1 else 0
  }

  lemma UnreadableSnoc(c: Config, readings: seq<Reading>, r: Reading)
    ensures Unreadable(c, readings + [r])
         == Unreadable(c, readings) + if c.decode(r.job).None? then 1 else 0
  {
    assert (readings + [r])[..|readings|] == readings;
  }

  function One(b: bool): nat { if b then 1 else 0 }

  /** What one step adds to the counters, and to the log. */
  lemma ActAdds(c: Config, l: Local, e: Event)
    requires Can(c, l, e)
    ensures var t := Act(c, l, e);
            && t.sh.completed == l.sh.completed + One(e.Increment?)
            && t.sh.errors + Unreadable(c, l.log.readings)
               == l.sh.errors + Unreadable(c, t.log.readings) + One(e.PopTransient?)
            && |t.log.readings| == |l.log.readings| + One(e.Decode?)
            && |t.log.popped| == |l.log.popped| + One(e.ServerPop?)
            && (t.sh.done <==> l.sh.done || e.Signal?)
            && t.sh.shutdown == l.sh.shutdown
  {
    if e.Decode? {
      UnreadableSnoc(c, l.log.readings, Reading(l.pc.job, e.now));
    }
  }

  /** The counters are the numbers of the steps that count. */
  ghost predicate Counted(c: Config, s: State, acts: seq<Action>) {
    && s.sh.completed == CountOf(acts, Increments)
    && s.sh.errors == CountOf(acts, FailedPop) + Unreadable(c, s.log.readings)
    && |s.log.readings| == CountOf(acts, Reads)
    && |s.log.popped| == CountOf(acts, Pops)
    && (s.sh.done <==> CountOf(acts, Signals) > 0)
  }

  lemma CountOfSnoc(acts: seq<Action>, a: Action, wanted: Action -> bool)
    ensures CountOf(acts + [a], wanted) == CountOf(acts, wanted) + One(wanted(a))
  {
    assert (acts + [a])[..|acts|] == acts;
  }

  lemma WorkCounts(c: Config, s: State, acts: seq<Action>, i: nat, e: Event)
    requires Counted(c, s, acts) && Enabled(c, s, Work(i, e))
    ensures Counted(c, Apply(c, s, Work(i, e)), acts + [Work(i, e)])
  {
    ActAdds(c, Local(s.sh, s.log, s.ws[i]), e);
    var a := Work(i, e);
    CountOfSnoc(acts, a, Increments);
    CountOfSnoc(acts, a, FailedPop);
    CountOfSnoc(acts, a, Reads);
    CountOfSnoc(acts, a, Pops);
    CountOfSnoc(acts, a, Signals);
  }

  /** No other step touches a counter or the log of readings and pops. */
  lemma OthersCountNothing(c: Config, s: State, a: Action)
    requires Enabled(c, s, a) && !a.Work?
    ensures var t := Apply(c, s, a);
            && t.sh.completed == s.sh.completed && t.sh.errors == s.sh.errors
            && t.sh.done == s.sh.done
            && t.log.readings == s.log.readings && t.log.popped == s.log.popped
  {}

  lemma StepCounts(c: Config, s: State, acts: seq<Action>, a: Action)
    requires Counted(c, s, acts) && Enabled(c, s, a)
    ensures Counted(c, Apply(c, s, a), acts + [a])
  {
    if a.Work? {
      WorkCounts(c, s, acts, a.i, a.e);
    } else {
      OthersCountNothing(c, s, a);
      CountOfSnoc(acts, a, Increments);
      CountOfSnoc(acts, a, FailedPop);
      CountOfSnoc(acts, a, Reads);
      CountOfSnoc(acts, a, Pops);
      CountOfSnoc(acts, a, Signals);
    }
  }

  lemma {:induction false} RunCounts(
      c: Config, s: State, before: seq<Action>, acts: seq<Action>, t: State)
    requires Counted(c, s, before) && Runs(c, s, acts, t)
    ensures Counted(c, t, before + acts)
    decreases |acts|
  {
    Unroll(c, s, acts, t);
    if acts == [] {
      assert before + acts == before;
    } else {
      StepCounts(c, s, before, acts[0]);
      RunCounts(c, Apply(c, s, acts[0]), before + [acts[0]], acts[1..], t);
      assert before + [acts[0]] + acts[1..] == before + acts;
    }
  }

  /** In every schedule the count of jobs is the number of increments, the count of errors
      the number of transient BRPOP failures and of readings without a marker; each pop is
      logged; and the flag is set exactly if some worker has signalled. */
  lemma CountersExactly(c: Config, start: Store, acts: seq<Action>, s: State)
    requires Runs(c, Init(start), acts, s)
    ensures s.sh.completed == CountOf(acts, Increments)
    ensures s.sh.errors == CountOf(acts, FailedPop) + Unreadable(c, s.log.readings)
    ensures |s.log.readings| == CountOf(acts, Reads) && |s.log.popped| == CountOf(acts, Pops)
    ensures s.sh.done <==> CountOf(acts, Signals) > 0
  {
    RunCounts(c, Init(start), [], acts, s);
    assert [] + acts == acts;
  }
}
