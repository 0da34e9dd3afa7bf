// The overshoot bound is attained: with enough jobs in the lists, some schedule counts
// exactly workers - 1 jobs beyond the target, for every target and every pool size.
module Overshoot {
  import opened Job
  import opened Broker
  import opened Protocol
  import opened Schedules

  predicate Idle(pc: PC) { pc.Fresh? || pc.Top? }

  /** A trial whose workers run while the pool is still being connected. */
  ghost predicate Open(c: Config, start: Store, s: State) {
    Reachable(c, start, s) && s.orch.phase == Spawning && !s.sh.shutdown
  }

  lemma Move(c: Config, start: Store, s: State, i: nat, e: Event) returns (t: State)
    requires Open(c, start, s) && i < |s.ws| && Can(c, Local(s.sh, s.log, s.ws[i]), e)
    ensures t == Place(s, i, Act(c, Local(s.sh, s.log, s.ws[i]), e))
    ensures Open(c, start, t)
  {
    t := Reach(c, start, s, Work(i, e));
  }

  /** Only worker i has moved. */
  ghost predicate OnlyMoved(s: State, t: State, i: nat) {
    |t.ws| == |s.ws| && forall j | 0 <= j < |s.ws| && j != i :: t.ws[j] == s.ws[j]
  }

  /** An idle worker that still sees the target ahead takes a job. */
  lemma TakeJob(c: Config, start: Store, s: State, i: nat) returns (t: State)
    requires Distinct(c.keys) && Open(c, start, s) && i < |s.ws| && Idle(s.ws[i])
    requires s.sh.completed < c.target && Drain(s.sh.store, c.keys) != []
    ensures Open(c, start, t) && OnlyMoved(s, t, i) && t.ws[i].Handling?
    ensures t.sh.completed == s.sh.completed
    ensures |Drain(t.sh.store, c.keys)| == |Drain(s.sh.store, c.keys)| - 1
  {
    PopTakesHead(s.sh.store, c.keys);
    t := s;
    if t.ws[i].Fresh? {
      t := Move(c, start, t, i, Start);
    }
    t := Move(c, start, t, i, CheckShutdown);
    t := Move(c, start, t, i, CheckTarget);
    t := Move(c, start, t, i, ServerPop);
    t := Move(c, start, t, i, Deliver);
  }

  /** A worker with a job in hand counts it, whatever the count has become meanwhile. */
  lemma CountJob(c: Config, start: Store, s: State, i: nat) returns (t: State)
    requires Open(c, start, s) && i < |s.ws| && s.ws[i].Handling?
    ensures Open(c, start, t) && OnlyMoved(s, t, i)
    ensures t.sh.completed == s.sh.completed + 1 && t.sh.store == s.sh.store
    ensures t.sh.completed < c.target ==> t.ws[i].Top?
  {
    t := Move(c, start, s, i, Decode(0));
    t := Move(c, start, t, i, Increment);
  }

  lemma {:induction false} SpawnAll(c: Config, start: Store, s: State) returns (t: State)
    requires Open(c, start, s) && |s.ws| <= c.workers
    requires s.sh.completed == 0 && forall j | 0 <= j < |s.ws| :: Idle(s.ws[j])
    ensures Open(c, start, t) && |t.ws| == c.workers && t.sh.completed == 0
    ensures t.sh.store == s.sh.store && forall j | 0 <= j < |t.ws| :: Idle(t.ws[j])
    decreases c.workers - |s.ws|
  {
    if |s.ws| == c.workers {
      t := s;
    } else {
      t := Reach(c, start, s, Main(Spawn));
      t := SpawnAll(c, start, t);
    }
  }

  /** The first worker alone brings the count to one short of the target. */
  lemma {:induction false} WorkUp(c: Config, start: Store, s: State) returns (t: State)
    requires Distinct(c.keys) && Open(c, start, s) && s.ws != [] && s.sh.completed < c.target
    requires forall j | 0 <= j < |s.ws| :: Idle(s.ws[j])
    requires |Drain(s.sh.store, c.keys)| >= c.target - 1 - s.sh.completed
    ensures Open(c, start, t) && |t.ws| == |s.ws| && t.sh.completed == c.target - 1
    ensures forall j | 0 <= j < |t.ws| :: Idle(t.ws[j])
    ensures |Drain(t.sh.store, c.keys)|
         == |Drain(s.sh.store, c.keys)| - (c.target - 1 - s.sh.completed)
    decreases c.target - s.sh.completed
  {
    if s.sh.completed == c.target - 1 {
      t := s;
    } else {
      t := TakeJob(c, start, s, 0);
      t := CountJob(c, start, t, 0);
      t := WorkUp(c, start, t);
    }
  }

  /** From worker i on, everybody takes a job while the count stands one short. */
  lemma {:induction false} EverybodyTakes(c: Config, start: Store, s: State, i: nat) returns (t: State)
    requires Distinct(c.keys) && Open(c, start, s) && i <= |s.ws| && s.sh.completed == c.target - 1
    requires forall j | 0 <= j < i :: s.ws[j].Handling?
    requires forall j | i <= j < |s.ws| :: Idle(s.ws[j])
    requires |Drain(s.sh.store, c.keys)| >= |s.ws| - i
    ensures Open(c, start, t) && |t.ws| == |s.ws| && t.sh.completed == c.target - 1
    ensures forall j | 0 <= j < |t.ws| :: t.ws[j].Handling?
    decreases |s.ws| - i
  {
    if i == |s.ws| {
      t := s;
    } else {
      t := TakeJob(c, start, s, i);
      t := EverybodyTakes(c, start, t, i + 1);
    }
  }

  lemma {:induction false} EverybodyCounts(c: Config, start: Store, s: State, i: nat) returns (t: State)
    requires Open(c, start, s) && i <= |s.ws|
    requires forall j | i <= j < |s.ws| :: s.ws[j].Handling?
    ensures Open(c, start, t) && t.sh.completed == s.sh.completed + |s.ws| - i
    decreases |s.ws| - i
  {
    if i == |s.ws| {
      t := s;
    } else {
      t := CountJob(c, start, s, i);
      t := EverybodyCounts(c, start, t, i + 1);
    }
  }

  /** The bound target + workers - 1 is reached whenever the lists hold that many jobs. */
  lemma OvershootAttained(c: Config, start: Store) returns (s: State)
    requires ValidConfig(c) && |Drain(start, c.keys)| >= c.target + c.workers - 1
    ensures Reachable(c, start, s) && s.sh.completed == c.target + c.workers - 1
  {
    InitReachable(c, start);
    s := SpawnAll(c, start, Init(start));
    s := WorkUp(c, start, s);
    s := EverybodyTakes(c, start, s, 0);
    s := EverybodyCounts(c, start, s, 0);
  }
}
