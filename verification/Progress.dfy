// A trial never gets into a position from which its target is out of reach.
module Progress {
  import opened Job
  import opened Broker
  import opened Protocol
  import opened Tally
  import opened Schedules
  import opened Theorems
  import opened Shutdown

  /** Before shutdown, with enough jobs enqueued and none lost, worker i still connected. */
  ghost predicate Hopeful(c: Config, start: Store, s: State, i: nat) {
    && Reachable(c, start, s) && s.orch.phase != Failed && !s.sh.shutdown
    && c.target <= |Drain(start, c.keys)| && s.log.lost == []
    && i < |s.ws| && !s.ws[i].Gone?
  }

  /** One step by a worker, other than a failing BRPOP. */
  lemma HopefulStep(c: Config, start: Store, s: State, i: nat, j: nat, e: Event) returns (t: State)
    requires Distinct(c.keys) && Hopeful(c, start, s, i) && s.sh.completed < c.target
    requires j < |s.ws| && Can(c, Local(s.sh, s.log, s.ws[j]), e)
    requires !e.PopFatal? && !e.PopTransient?
    ensures t == Place(s, j, Act(c, Local(s.sh, s.log, s.ws[j]), e))
    ensures Hopeful(c, start, t, i)
    ensures Backlog(c, t) + (if Productive(s, Work(j, e)) then 1 else 0) <= Backlog(c, s)
  {
    t := Reach(c, start, s, Work(j, e));
    BacklogFalls(c, s, Work(j, e));
  }

  /** A connected worker that rests or signals gets back to the top of its loop. */
  lemma ToTop(c: Config, start: Store, s: State, i: nat) returns (t: State)
    requires Distinct(c.keys) && Hopeful(c, start, s, i) && s.sh.completed < c.target
    requires InHand(s.ws[i]) == 0
    ensures Hopeful(c, start, t, i) && t.sh.completed == s.sh.completed
    ensures t.ws[i].Top? || t.ws[i].AtTarget? || t.ws[i].Blocked?
    ensures t.sh.store == s.sh.store && Backlog(c, t) <= Backlog(c, s)
  {
    t := s;
    if t.ws[i].Fresh? {
      t := HopefulStep(c, start, t, i, i, Start);
    } else if t.ws[i].Sleeping? {
      t := HopefulStep(c, start, t, i, i, Wake);
    } else if t.ws[i].Signalling? {
      t := HopefulStep(c, start, t, i, i, Signal);
    }
  }

  /** A connected worker without a job gets to its BRPOP. */
  lemma ToBlocked(c: Config, start: Store, s: State, i: nat) returns (t: State)
    requires Distinct(c.keys) && Hopeful(c, start, s, i) && s.sh.completed < c.target
    requires InHand(s.ws[i]) == 0
    ensures Hopeful(c, start, t, i) && t.ws[i].Blocked? && t.sh.completed == s.sh.completed
    ensures t.sh.store == s.sh.store && Backlog(c, t) <= Backlog(c, s)
  {
    t := ToTop(c, start, s, i);
    if t.ws[i].Top? {
      t := HopefulStep(c, start, t, i, i, CheckShutdown);
    }
    if t.ws[i].AtTarget? {
      t := HopefulStep(c, start, t, i, i, CheckTarget);
    }
  }

  /** From every such state, some continuation brings the count to the target. */
  lemma {:induction false} TargetStaysInReach(c: Config, start: Store, s: State, i: nat)
    returns (t: State)
    requires ValidConfig(c) && Hopeful(c, start, s, i)
    ensures Reachable(c, start, t) && t.sh.completed >= c.target
    decreases Backlog(c, s)
  {
    t := s;
    if s.sh.completed < c.target {
      if j :| 0 <= j < |s.ws| && InHand(s.ws[j]) == 1 {
        t := HopefulStep(c, start, s, i, j, NextEvent(s.ws[j]));
      } else {
        NoStall(c, start, s);
        t := ToBlocked(c, start, s, i);
        t := HopefulStep(c, start, t, i, i, ServerPop);
      }
      t := TargetStaysInReach(c, start, t, i);
    }
  }
}
