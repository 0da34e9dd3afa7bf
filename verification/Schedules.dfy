// Putting schedules together.
module Schedules {
  import opened Broker
  import opened Protocol

  /** The empty schedule changes nothing. */
  lemma RunsNone(c: Config, s: State, t: State)
    ensures Runs(c, s, [], t) <==> s == t
  {
    if s == t {
      var trace := [s];
      assert IsTrace(c, s, [], t, trace);
    }
  }

  lemma SplitFirst(c: Config, s: State, acts: seq<Action>, t: State)
    requires acts != [] && Runs(c, s, acts, t)
    ensures Enabled(c, s, acts[0]) && Runs(c, Apply(c, s, acts[0]), acts[1..], t)
  {
    var trace: seq<State> :| IsTrace(c, s, acts, t, trace);
    assert StepAt(c, trace, acts, 0);
    forall k | 0 <= k < |acts[1..]| ensures StepAt(c, trace[1..], acts[1..], k) {
      assert StepAt(c, trace, acts, k + 1);
    }
    assert IsTrace(c, trace[1], acts[1..], t, trace[1..]);
  }

  lemma JoinFirst(c: Config, s: State, acts: seq<Action>, t: State)
    requires acts != [] && Enabled(c, s, acts[0]) && Runs(c, Apply(c, s, acts[0]), acts[1..], t)
    ensures Runs(c, s, acts, t)
  {
    var rest: seq<State> :| IsTrace(c, Apply(c, s, acts[0]), acts[1..], t, rest);
    var trace := [s] + rest;
    forall k | 0 <= k < |acts| ensures StepAt(c, trace, acts, k) {
      if k > 0 {
        assert StepAt(c, rest, acts[1..], k - 1);
      }
    }
    assert IsTrace(c, s, acts, t, trace);
  }

  /** A schedule takes its first action and then the rest. */
  lemma RunsFirst(c: Config, s: State, acts: seq<Action>, t: State)
    requires acts != []
    ensures Runs(c, s, acts, t)
       <==> Enabled(c, s, acts[0]) && Runs(c, Apply(c, s, acts[0]), acts[1..], t)
  {
    if Runs(c, s, acts, t) {
      SplitFirst(c, s, acts, t);
    }
    if Enabled(c, s, acts[0]) && Runs(c, Apply(c, s, acts[0]), acts[1..], t) {
      JoinFirst(c, s, acts, t);
    }
  }

  /** A schedule that runs is empty or takes an enabled first step. */
  lemma Unroll(c: Config, s: State, acts: seq<Action>, t: State)
    requires Runs(c, s, acts, t)
    ensures if acts == [] then s == t
            else Enabled(c, s, acts[0]) && Runs(c, Apply(c, s, acts[0]), acts[1..], t)
  {
    if acts == [] {
      RunsNone(c, s, t);
    } else {
      RunsFirst(c, s, acts, t);
    }
  }

  lemma {:induction false} RunsCompose(
      c: Config, s: State, acts: seq<Action>, t: State, more: seq<Action>, u: State)
    requires Runs(c, s, acts, t) && Runs(c, t, more, u)
    ensures Runs(c, s, acts + more, u)
    decreases |acts|
  {
    if acts == [] {
      RunsNone(c, s, t);
      assert acts + more == more;
    } else {
      RunsFirst(c, s, acts, t);
      RunsFirst(c, s, acts + more, u);
      assert (acts + more)[0] == acts[0] && (acts + more)[1..] == acts[1..] + more;
      RunsCompose(c, Apply(c, s, acts[0]), acts[1..], t, more, u);
    }
  }

  lemma RunOne(c: Config, s: State, a: Action)
    requires Enabled(c, s, a)
    ensures Runs(c, s, [a], Apply(c, s, a))
  {
    RunsNone(c, Apply(c, s, a), Apply(c, s, a));
    assert [a][1..] == [];
    RunsFirst(c, s, [a], Apply(c, s, a));
  }

  lemma Stay(c: Config, s: State)
    ensures Leads(c, s, s)
  {
    RunsNone(c, s, s);
  }

  lemma GoOn(c: Config, s: State, t: State, u: State)
    requires Leads(c, s, t) && Leads(c, t, u)
    ensures Leads(c, s, u)
  {
    var acts :| Runs(c, s, acts, t);
    var more :| Runs(c, t, more, u);
    RunsCompose(c, s, acts, t, more, u);
  }

  /** One more enabled step. */
  lemma Go(c: Config, start: State, s: State, a: Action) returns (t: State)
    requires Leads(c, start, s) && Enabled(c, s, a)
    ensures t == Apply(c, s, a) && Leads(c, start, t)
  {
    t := Apply(c, s, a);
    RunOne(c, s, a);
    GoOn(c, start, s, t);
  }

  lemma InitReachable(c: Config, start: Store)
    ensures Reachable(c, start, Init(start))
  {
    Stay(c, Init(start));
  }

  /** One more enabled step leads to a reachable state again. */
  lemma Reach(c: Config, start: Store, s: State, a: Action) returns (t: State)
    requires Reachable(c, start, s) && Enabled(c, s, a)
    ensures t == Apply(c, s, a) && Reachable(c, start, t)
  {
    t := Go(c, Init(start), s, a);
  }
}
