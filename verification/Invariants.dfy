// What every step of a trial keeps.
module Invariants {
  import opened Wrappers
  import opened Job
  import opened Broker
  import opened Protocol
  import opened Tally
  import opened Readings
  import opened Schedules

  // ---- phases, senders and joins ----

  function SentinelHeld(p: Phase): int { if Rank(p) < 5 then 1 else 0 }

  function TemplateHeld(p: Phase): int { if Rank(p) == 0 then 1 else 0 }

  /** The channel's senders are the orchestrator's sentinel, the worker template until it
      is dropped, and the live workers; only finished workers are joined, once each. */
  ghost predicate Shape(c: Config, s: State) {
    var p := s.orch.phase;
    && |s.ws| <= c.workers
    && (Rank(p) > 0 ==> |s.ws| == c.workers)
    && (Rank(p) == 0 <==> s.mon.pc.Unborn?)
    && (s.orch.verdict == Undecided <==> Rank(p) < 2)
    && (s.sh.shutdown <==> Rank(p) >= 4)
    && s.sh.senders == SentinelHeld(p) + TemplateHeld(p) + Total(s.ws, Live)
  }

  ghost predicate Joins(s: State) {
    && Distinct(s.orch.joined)
    && (forall i | i in s.orch.joined :: i < |s.ws| && s.ws[i].Gone?)
    && (Rank(s.orch.phase) >= 7 ==> AllJoined(s))
    && (s.orch.verdict == AllExited ==> AllJoined(s))
  }

  /** The collector leaves only when no sender is left and nothing is buffered. */
  ghost predicate Closure(s: State) {
    && (s.col.exited ==> s.sh.senders == 0 && s.sh.chan == [])
    && (Rank(s.orch.phase) >= 8 ==> s.col.exited)
  }

  /** A worker's step gives up its sender exactly when it ends the worker. */
  lemma ActSenders(c: Config, l: Local, e: Event)
    requires Can(c, l, e)
    ensures var t := Act(c, l, e);
            t.sh.senders - Live(t.pc) == l.sh.senders - Live(l.pc)
            && t.sh.shutdown == l.sh.shutdown
  {}

  /** The orchestrator adds a sender for each worker and drops its own two, one by one. */
  lemma MainKeepsSenders(c: Config, s: State, m: MainEvent)
    requires CanMain(c, s, m)
    ensures var t := ApplyMain(c, s, m);
            t.sh.senders - SentinelHeld(t.orch.phase) - TemplateHeld(t.orch.phase)
            == s.sh.senders - SentinelHeld(s.orch.phase) - TemplateHeld(s.orch.phase)
               + if m.Spawn? then 1 else 0
  {}

  lemma MainKeepsShape(c: Config, s: State, m: MainEvent)
    requires Shape(c, s) && CanMain(c, s, m)
    ensures Shape(c, ApplyMain(c, s, m))
  {
    MainKeepsSenders(c, s, m);
    match m
    case Spawn => TotalSpawn(s.ws, Fresh, Live);
    case Join(_) => assert ApplyMain(c, s, m).orch.phase == s.orch.phase;
    case _ => assert ApplyMain(c, s, m).ws == s.ws;
  }

  lemma WorkKeepsShape(c: Config, s: State, i: nat, e: Event)
    requires Shape(c, s) && Enabled(c, s, Work(i, e))
    ensures Shape(c, Apply(c, s, Work(i, e)))
  {
    var l := Local(s.sh, s.log, s.ws[i]);
    ActSenders(c, l, e);
    TotalPlace(s.ws, i, Act(c, l, e).pc, Live);
  }

  lemma KeepsShape(c: Config, s: State, a: Action)
    requires Shape(c, s) && Enabled(c, s, a)
    ensures Shape(c, Apply(c, s, a))
  {
    match a
    case Work(i, e) => WorkKeepsShape(c, s, i, e);
    case Kill(i) => TotalPlace(s.ws, i, Gone, Live);
    case Main(m) => MainKeepsShape(c, s, m);
    case Collect(_) =>
    case Tick(_) =>
  }

  lemma JoinedStay(s: State, t: State)
    requires Joins(s) && t.orch == s.orch && |t.ws| == |s.ws|
    requires forall i | 0 <= i < |s.ws| && s.ws[i].Gone? :: t.ws[i].Gone?
    ensures Joins(t)
  {}

  lemma MainKeepsJoins(c: Config, s: State, m: MainEvent)
    requires Joins(s) && Shape(c, s) && CanMain(c, s, m)
    ensures Joins(ApplyMain(c, s, m))
  {
    var t := ApplyMain(c, s, m);
    if m.Join? {
      assert t.orch.joined == s.orch.joined + [m.i];
    } else {
      assert t.orch.joined == s.orch.joined;
    }
    if AllJoined(s) && !m.Spawn? {
      assert AllJoined(t);
    }
  }

  lemma KeepsJoins(c: Config, s: State, a: Action)
    requires Joins(s) && Shape(c, s) && Enabled(c, s, a)
    ensures Joins(Apply(c, s, a))
  {
    match a
    case Work(i, e) => JoinedStay(s, Apply(c, s, a));
    case Kill(i) => JoinedStay(s, Apply(c, s, a));
    case Main(m) => MainKeepsJoins(c, s, m);
    case Collect(_) => JoinedStay(s, Apply(c, s, a));
    case Tick(_) => JoinedStay(s, Apply(c, s, a));
  }

  lemma GoneMeansNoSenders(s: State)
    requires Joins(s) && AllJoined(s)
    ensures Total(s.ws, Live) == 0
  {
    forall i | 0 <= i < |s.ws| ensures Live(s.ws[i]) == 0 { assert i in s.orch.joined; }
    TotalZero(s.ws, Live);
  }

  /** With no sender left there is no live worker, and the sentinel is gone. */
  lemma NoSenders(c: Config, s: State)
    requires Shape(c, s) && s.sh.senders == 0
    ensures Rank(s.orch.phase) >= 5
    ensures forall i | 0 <= i < |s.ws| :: s.ws[i].Gone?
  {
    forall i | 0 <= i < |s.ws| ensures s.ws[i].Gone? { TotalAtLeast(s.ws, i, Live); }
  }

  lemma MainKeepsClosure(c: Config, s: State, m: MainEvent)
    requires Closure(s) && CanMain(c, s, m)
    requires s.col.exited ==> Rank(s.orch.phase) >= 5
    ensures Closure(ApplyMain(c, s, m))
  {}

  lemma KeepsClosure(c: Config, s: State, a: Action)
    requires Closure(s) && Shape(c, s) && Joins(s) && Enabled(c, s, a)
    ensures Closure(Apply(c, s, a))
  {
    if s.col.exited { NoSenders(c, s); }
    match a
    case Work(_, _) =>
    case Kill(_) =>
    case Main(m) => MainKeepsClosure(c, s, m);
    case Collect(_) =>
    case Tick(_) =>
  }

  // ---- samples ----

  function Recorded(cap: nat, values: seq<nat>): seq<nat> {
    if values == [] then []
    else Record(cap, Recorded(cap, values[..|values| - 1]), values[|values| - 1])
  }

  function Flatten(cuts: seq<seq<nat>>): seq<nat> {
    if cuts == [] then [] else Flatten(cuts[..|cuts| - 1]) + cuts[|cuts| - 1]
  }

  /** Every sample or decoding error belongs to a counted job or to a worker about to count it. */
  ghost predicate Samples(s: State) {
    && |s.log.sent| + s.log.undecodable == s.sh.completed + Total(s.ws, Between)
    && s.sh.errors == s.log.undecodable + s.log.transient
    && (forall v | v in s.log.sent :: v >= 1)
  }

  /** The trial-long histogram holds what was received and fits, and is cut into windows. */
  ghost predicate Windows(c: Config, s: State) {
    && s.col.received + s.sh.chan == s.log.sent
    && s.col.hist == Recorded(c.cap, s.col.received)
    && s.col.hist == Flatten(s.col.cuts) + s.col.window
  }

  ghost predicate Totals(s: State) {
    && (Rank(s.orch.phase) >= 8 ==> s.orch.report.hist == s.col.hist)
    && (Rank(s.orch.phase) >= 9 ==>
          s.orch.report.total == s.sh.completed && s.orch.report.errors == s.sh.errors)
  }

  /** Decoding pays for the count that the increment then makes. */
  lemma ActSamples(c: Config, l: Local, e: Event)
    requires Can(c, l, e)
    ensures var t := Act(c, l, e);
            && |t.log.sent| + t.log.undecodable - t.sh.completed - Between(t.pc)
               == |l.log.sent| + l.log.undecodable - l.sh.completed - Between(l.pc)
            && t.sh.errors - t.log.undecodable - t.log.transient
               == l.sh.errors - l.log.undecodable - l.log.transient
  {}

  /** A worker sends at most one sample at a time, of at least one microsecond. */
  lemma ActSends(c: Config, l: Local, e: Event)
    requires Can(c, l, e)
    ensures var t := Act(c, l, e);
            || (t.log.sent == l.log.sent && t.sh.chan == l.sh.chan)
            || exists us: nat :: us >= 1 && t.log.sent == l.log.sent + [us]
                                 && t.sh.chan == l.sh.chan + [us]
  {
    if e.Decode? && c.decode(l.pc.job).Some? {
      var us := LatencyUs(c.decode(l.pc.job).value, e.now);
      assert Act(c, l, e).log.sent == l.log.sent + [us];
    }
  }

  lemma KeepsSamples(c: Config, s: State, a: Action)
    requires Samples(s) && Enabled(c, s, a)
    ensures Samples(Apply(c, s, a))
  {
    match a
    case Work(i, e) =>
      var l := Local(s.sh, s.log, s.ws[i]);
      ActSamples(c, l, e);
      ActSends(c, l, e);
      TotalPlace(s.ws, i, Act(c, l, e).pc, Between);
    case Kill(i) => TotalPlace(s.ws, i, Gone, Between);
    case Main(m) => if m.Spawn? { TotalSpawn(s.ws, Fresh, Between); }
    case Collect(_) =>
    case Tick(_) =>
  }

  lemma RecordedSnoc(cap: nat, values: seq<nat>, v: nat)
    ensures Recorded(cap, values + [v]) == Record(cap, Recorded(cap, values), v)
  {
    assert (values + [v])[..|values|] == values;
  }

  lemma FlattenSnoc(cuts: seq<seq<nat>>, w: seq<nat>)
    ensures Flatten(cuts + [w]) == Flatten(cuts) + w
  {
    assert (cuts + [w])[..|cuts|] == cuts;
  }

  lemma ReceiveKeepsWindows(c: Config, s: State)
    requires Windows(c, s) && Samples(s) && CanCollect(s, Receive)
    ensures Windows(c, ApplyCollect(c, s, Receive))
  {
    var v := s.sh.chan[0];
    var t := ApplyCollect(c, s, Receive);
    assert s.log.sent[|s.col.received|] == v && v in s.log.sent;
    assert s.sh.chan == [v] + t.sh.chan;
    assert (s.col.received + [v]) + t.sh.chan == s.col.received + s.sh.chan;
    RecordedSnoc(c.cap, s.col.received, v);
    assert Flatten(s.col.cuts) + (s.col.window + [v]) == s.col.hist + [v];
  }

  lemma KeepsWindows(c: Config, s: State, a: Action)
    requires Windows(c, s) && Samples(s) && Enabled(c, s, a)
    ensures Windows(c, Apply(c, s, a))
  {
    match a
    case Work(i, e) =>
      var l := Local(s.sh, s.log, s.ws[i]);
      ActSends(c, l, e);
      var t := Act(c, l, e);
      if t.sh.chan != l.sh.chan {
        var us :| us >= 1 && t.log.sent == l.log.sent + [us] && t.sh.chan == l.sh.chan + [us];
        assert s.col.received + (s.sh.chan + [us]) == (s.col.received + s.sh.chan) + [us];
      }
    case Kill(_) =>
    case Main(_) =>
    case Collect(k) =>
      if k.Receive? { ReceiveKeepsWindows(c, s); }
      if k.Serve? {
        FlattenSnoc(s.col.cuts, s.col.window);
        assert s.col.hist + [] == s.col.hist;
      }
    case Tick(_) =>
  }

  /** Once all workers are joined, no step is a worker's. */
  lemma NoWorkerLeft(c: Config, s: State, a: Action)
    requires Joins(s) && Enabled(c, s, a) && AllJoined(s)
    ensures !a.Work? && !a.Kill?
  {
    assert forall i | 0 <= i < |s.ws| :: i in s.orch.joined && s.ws[i].Gone?;
  }

  lemma MainKeepsTotals(c: Config, s: State, m: MainEvent)
    requires Totals(s) && CanMain(c, s, m)
    ensures Totals(ApplyMain(c, s, m))
  {}

  lemma KeepsTotals(c: Config, s: State, a: Action)
    requires Totals(s) && Joins(s) && Closure(s) && Enabled(c, s, a)
    ensures Totals(Apply(c, s, a))
  {
    if Rank(s.orch.phase) >= 7 {
      NoWorkerLeft(c, s, a);
    }
    match a
    case Work(_, _) =>
    case Kill(_) =>
    case Main(m) => MainKeepsTotals(c, s, m);
    case Collect(_) =>
    case Tick(_) =>
  }

  // ---- jobs ----

  /** Popped jobs, in the order of their pops, followed by what the keys still hold, are
      what the keys held at the start; and each popped job is in exactly one place. */
  ghost predicate Accounted(c: Config, start: Store, s: State) {
    && s.log.popped + Drain(s.sh.store, c.keys) == Drain(start, c.keys)
    && multiset(s.log.popped)
       == Held(s.ws) + (multiset(s.log.finished) + multiset(s.log.lost))
    && |s.log.finished| == s.sh.completed
  }

  lemma ActOrder(c: Config, l: Local, e: Event)
    requires Distinct(c.keys) && Can(c, l, e)
    ensures var t := Act(c, l, e);
            t.log.popped + Drain(t.sh.store, c.keys) == l.log.popped + Drain(l.sh.store, c.keys)
  {
    if e.ServerPop? {
      PopTakesHead(l.sh.store, c.keys);
      var job, tail := Popped(l.sh.store, c.keys), Drain(AfterPop(l.sh.store, c.keys), c.keys);
      assert l.log.popped + ([job] + tail) == (l.log.popped + [job]) + tail;
    }
  }

  lemma Hand(p: multiset<Payload>, out: multiset<Payload>, x: multiset<Payload>)
    ensures (p + x) + (out + multiset{}) == p + (out + x)
  {}

  lemma Away(finished: multiset<Payload>, lost: multiset<Payload>, x: multiset<Payload>)
    ensures finished + lost + x == (finished + x) + lost + multiset{}
    ensures finished + lost + x == finished + (lost + x) + multiset{}
  {}

  /** `t` holds, finished, lost and popped what `l` did, apart from one job changing place. */
  ghost predicate Balanced(l: Local, t: Local) {
    multiset(t.log.popped) + (multiset(l.log.finished) + multiset(l.log.lost) + Bag(JobOf(l.pc)))
    == multiset(l.log.popped) + (multiset(t.log.finished) + multiset(t.log.lost) + Bag(JobOf(t.pc)))
  }

  ghost predicate Untouched(l: Local, t: Local) {
    t.log.popped == l.log.popped && t.log.finished == l.log.finished
    && t.log.lost == l.log.lost && JobOf(t.pc) == JobOf(l.pc)
  }

  ghost predicate Takes(l: Local, t: Local) {
    && t.pc.InFlight? && t.log.popped == l.log.popped + [t.pc.job]
    && t.log.finished == l.log.finished && t.log.lost == l.log.lost
    && JobOf(l.pc) == None
  }

  ghost predicate Releases(l: Local, t: Local, job: Payload) {
    && t.log.popped == l.log.popped
    && JobOf(l.pc) == Some(job) && JobOf(t.pc) == None
    && (|| (t.log.finished == l.log.finished + [job] && t.log.lost == l.log.lost)
        || (t.log.finished == l.log.finished && t.log.lost == l.log.lost + [job]))
  }

  lemma UntouchedBalances(l: Local, t: Local)
    requires Untouched(l, t)
    ensures Balanced(l, t)
  {}

  lemma TakesBalances(l: Local, t: Local)
    requires Takes(l, t)
    ensures Balanced(l, t)
  {
    Hand(multiset(l.log.popped), multiset(l.log.finished) + multiset(l.log.lost), Bag(JobOf(t.pc)));
  }

  lemma ReleasesBalances(l: Local, t: Local, job: Payload)
    requires Releases(l, t, job)
    ensures Balanced(l, t)
  {
    Away(multiset(l.log.finished), multiset(l.log.lost), multiset{job});
  }

  /** A pop puts the job in the worker's hands; it leaves them finished or lost. */
  lemma ActMoves(c: Config, l: Local, e: Event)
    requires Can(c, l, e)
    ensures var t := Act(c, l, e);
            if e.ServerPop? then Takes(l, t)
            else if e.Increment? || (l.pc.InFlight? && (e.PopFatal? || e.PopTransient?)) then
              Releases(l, t, l.pc.job)
            else Untouched(l, t)
  {}

  lemma ActPlaces(c: Config, l: Local, e: Event)
    requires Can(c, l, e)
    ensures Balanced(l, Act(c, l, e))
  {
    var t := Act(c, l, e);
    ActMoves(c, l, e);
    if Takes(l, t) {
      TakesBalances(l, t);
    } else if Untouched(l, t) {
      UntouchedBalances(l, t);
    } else {
      ReleasesBalances(l, t, l.pc.job);
    }
  }

  lemma DroppedPlaces(l: Local)
    requires Suspended(l.pc)
    ensures Balanced(l, Dropped(l))
  {
    if l.pc.InFlight? {
      ReleasesBalances(l, Dropped(l), l.pc.job);
    } else {
      UntouchedBalances(l, Dropped(l));
    }
  }

  lemma KeepsPlaces(c: Config, s: State, i: nat, t: Local)
    requires i < |s.ws|
    requires multiset(s.log.popped)
             == Held(s.ws) + (multiset(s.log.finished) + multiset(s.log.lost))
    requires Balanced(Local(s.sh, s.log, s.ws[i]), t)
    ensures multiset(t.log.popped)
            == Held(s.ws[i := t.pc]) + (multiset(t.log.finished) + multiset(t.log.lost))
  {
    GatherPlace(s.ws, i, t.pc, JobOf);
    Cancel(multiset(s.log.popped), multiset(t.log.popped), Held(s.ws), Held(s.ws[i := t.pc]),
           multiset(s.log.finished) + multiset(s.log.lost),
           multiset(t.log.finished) + multiset(t.log.lost), Bag(JobOf(s.ws[i])), Bag(JobOf(t.pc)));
  }

  lemma ActFinishes(c: Config, l: Local, e: Event)
    requires Can(c, l, e) && |l.log.finished| == l.sh.completed
    ensures |Act(c, l, e).log.finished| == Act(c, l, e).sh.completed
  {}

  lemma KeepsJobs(c: Config, start: Store, s: State, a: Action)
    requires Distinct(c.keys) && Accounted(c, start, s) && Enabled(c, s, a)
    ensures Accounted(c, start, Apply(c, s, a))
  {
    match a
    case Work(i, e) =>
      var l := Local(s.sh, s.log, s.ws[i]);
      ActOrder(c, l, e);
      ActPlaces(c, l, e);
      ActFinishes(c, l, e);
      KeepsPlaces(c, s, i, Act(c, l, e));
    case Kill(i) =>
      var l := Local(s.sh, s.log, s.ws[i]);
      DroppedPlaces(l);
      KeepsPlaces(c, s, i, Dropped(l));
    case Main(m) => if m.Spawn? { GatherSpawn(s.ws, Fresh, JobOf); }
    case Collect(_) =>
    case Tick(_) =>
  }

  // ---- the target ----

  /** A worker that has passed the check can still push the count past the target. */
  ghost predicate Bounded(c: Config, s: State) {
    s.sh.completed + Total(s.ws, Past) <= c.target + c.workers - 1
  }

  /** Only a worker that still sees the target ahead adds itself to those past the check. */
  lemma ActBounded(c: Config, l: Local, e: Event)
    requires Can(c, l, e)
    ensures var t := Act(c, l, e);
            || t.sh.completed + Past(t.pc) <= l.sh.completed + Past(l.pc)
            || (l.sh.completed < c.target && t.sh.completed == l.sh.completed)
  {}

  lemma KeepsBounded(c: Config, s: State, a: Action)
    requires c.target > 0 && c.workers > 0 && Bounded(c, s) && Shape(c, s) && Enabled(c, s, a)
    ensures Bounded(c, Apply(c, s, a))
  {
    match a
    case Work(i, e) =>
      var l := Local(s.sh, s.log, s.ws[i]);
      var t := Act(c, l, e);
      ActBounded(c, l, e);
      TotalPlace(s.ws, i, t.pc, Past);
      TotalBound(s.ws[i := t.pc], Past, 1);
    case Kill(i) => TotalPlace(s.ws, i, Gone, Past);
    case Main(m) => if m.Spawn? { TotalSpawn(s.ws, Fresh, Past); }
    case Collect(_) =>
    case Tick(_) =>
  }

  /** The increments return 1, 2, 3, ...; the flag is set, or about to be, once one of
      them has returned the target, and never before. */
  ghost predicate Announced(c: Config, s: State) {
    && |s.log.tickets| == s.sh.completed
    && (forall k | 0 <= k < |s.log.tickets| :: s.log.tickets[k] == k + 1)
    && (forall i | 0 <= i < |s.ws| && s.ws[i].Signalling? :: c.target <= s.ws[i].ret <= s.sh.completed)
    && (s.sh.done ==> s.sh.completed >= c.target)
    && (s.sh.completed >= c.target ==> s.sh.done || Total(s.ws, Announcing) > 0)
    && (s.orch.verdict == TargetReached ==> s.sh.done)
  }

  lemma ActAnnounces(c: Config, l: Local, e: Event)
    requires c.target > 0 && Can(c, l, e)
    requires l.pc.Signalling? ==> c.target <= l.pc.ret <= l.sh.completed
    ensures var t := Act(c, l, e);
            && (t.pc.Signalling? ==> c.target <= t.pc.ret <= t.sh.completed)
            && t.sh.completed >= l.sh.completed
            && (l.sh.done ==> t.sh.done)
            && (t.sh.done && !l.sh.done ==> t.sh.completed >= c.target)
            && (t.sh.completed >= c.target && !t.sh.done ==>
                  Announcing(t.pc) == 1 || (Announcing(l.pc) == 0 && l.sh.completed >= c.target))
            && (if t.sh.completed == l.sh.completed then t.log.tickets == l.log.tickets
                else t.sh.completed == l.sh.completed + 1
                     && t.log.tickets == l.log.tickets + [t.sh.completed])
  {}

  lemma WorkKeepsAnnounced(c: Config, s: State, i: nat, e: Event)
    requires c.target > 0 && Announced(c, s) && Enabled(c, s, Work(i, e))
    ensures Announced(c, Apply(c, s, Work(i, e)))
  {
    var l := Local(s.sh, s.log, s.ws[i]);
    var t := Act(c, l, e);
    ActAnnounces(c, l, e);
    TotalPlace(s.ws, i, t.pc, Announcing);
    TotalAtLeast(s.ws[i := t.pc], i, Announcing);
  }

  lemma KillKeepsAnnounced(c: Config, s: State, i: nat)
    requires Announced(c, s) && Enabled(c, s, Kill(i))
    ensures Announced(c, Apply(c, s, Kill(i)))
  {
    TotalPlace(s.ws, i, Gone, Announcing);
  }

  lemma MainKeepsAnnounced(c: Config, s: State, m: MainEvent)
    requires Announced(c, s) && CanMain(c, s, m)
    ensures Announced(c, ApplyMain(c, s, m))
  {
    if m.Spawn? {
      SpawnKeepsAnnounced(c, s);
    } else {
      assert ApplyMain(c, s, m).ws == s.ws;
    }
  }

  lemma SpawnKeepsAnnounced(c: Config, s: State)
    requires Announced(c, s) && CanMain(c, s, Spawn)
    ensures Announced(c, ApplyMain(c, s, Spawn))
  {
    TotalSpawn(s.ws, Fresh, Announcing);
  }

  lemma KeepsAnnounced(c: Config, s: State, a: Action)
    requires c.target > 0 && Announced(c, s) && Enabled(c, s, a)
    ensures Announced(c, Apply(c, s, a))
  {
    match a
    case Work(i, e) => WorkKeepsAnnounced(c, s, i, e);
    case Kill(i) => KillKeepsAnnounced(c, s, i);
    case Main(m) => MainKeepsAnnounced(c, s, m);
    case Collect(_) =>
    case Tick(_) =>
  }

  // ---- the monitor ----

  function Sum(xs: seq<int>): int {
    if xs == [] then 0 else Sum(xs[..|xs| - 1]) + xs[|xs| - 1]
  }

  function PendingTput(pc: MonPC): int { if pc.Loaded? then pc.delta else 0 }

  function PendingErrs(pc: MonPC): int { if pc.ErrsLoaded? then pc.delta else 0 }

  /** The samples, all of them non-negative, add up with the one still due to `prev`. */
  ghost predicate Adds(xs: seq<int>, due: int, prev: int) {
    Sum(xs) + due == prev && due >= 0 && forall d | d in xs :: d >= 0
  }

  /** The samples telescope to the last counter read, which no counter has fallen below. */
  ghost predicate Telescopes(s: State) {
    && Adds(s.mon.tput, PendingTput(s.mon.pc), s.mon.prevCompleted)
    && Adds(s.mon.errs, PendingErrs(s.mon.pc), s.mon.prevErrors)
    && s.mon.prevCompleted <= s.sh.completed && s.mon.prevErrors <= s.sh.errors
  }

  lemma SumSnoc(xs: seq<int>, x: int)
    ensures Sum(xs + [x]) == Sum(xs) + x
  {
    assert (xs + [x])[..|xs|] == xs;
  }

  lemma ActCounts(c: Config, l: Local, e: Event)
    requires Can(c, l, e)
    ensures Act(c, l, e).sh.completed >= l.sh.completed && Act(c, l, e).sh.errors >= l.sh.errors
  {}

  lemma AddsOneMore(xs: seq<int>, due: int, prev: int)
    requires Adds(xs, due, prev)
    ensures Adds(xs + [due], 0, prev)
  {
    SumSnoc(xs, due);
  }

  lemma TickTelescopes(s: State, m: MonEvent)
    requires Telescopes(s) && CanTick(s, m)
    ensures Telescopes(s.(mon := ApplyTick(s, m)))
  {
    if m.PushTput? {
      AddsOneMore(s.mon.tput, s.mon.pc.delta, s.mon.prevCompleted);
    } else if m.PushErrs? {
      AddsOneMore(s.mon.errs, s.mon.pc.delta, s.mon.prevErrors);
    }
  }

  lemma KeepsTelescopes(c: Config, s: State, a: Action)
    requires Telescopes(s) && Shape(c, s) && Enabled(c, s, a)
    ensures Telescopes(Apply(c, s, a))
  {
    match a
    case Work(i, e) => ActCounts(c, Local(s.sh, s.log, s.ws[i]), e);
    case Kill(_) =>
    case Main(_) =>
    case Collect(_) =>
    case Tick(m) => TickTelescopes(s, m);
  }

  /** Between the push of one series and the push of the other. */
  predicate BetweenPushes(pc: MonPC) { pc.TputPushed? || pc.ErrsLoaded? }

  /** Before the throughput push of a tick, or between ticks. */
  predicate BeforePushes(pc: MonPC) { pc.Unborn? || pc.Asleep? || pc.Awake? || pc.Loaded? }

  /** The i-th latency sample comes from the i-th window, and the series keep in step: a
      tick adds one to each, except that the last may miss its latency sample. */
  ghost predicate InStep(s: State) {
    var mon := s.mon;
    && |mon.errs| == |mon.tput| - (if BetweenPushes(mon.pc) then 1 else 0)
    && mon.lat <= s.col.cuts && |s.col.cuts| <= |mon.lat| + 1
    && (!mon.pc.Answered? && !mon.pc.Stopped? ==> s.col.cuts == mon.lat)
    && (mon.pc.Answered? ==> s.col.cuts == mon.lat + [mon.pc.window] && !mon.pending)
    && |mon.lat| <= |mon.tput| <= |mon.lat| + 1
    && (mon.pending ==> mon.pc.Requested? || mon.pc.Stopped?)
    && (mon.pc.Requested? ==> mon.pending || s.col.exited)
    && (BeforePushes(mon.pc) && |mon.tput| == |mon.lat| + 1 ==> mon.pc.Asleep? && s.col.exited)
    && (!BeforePushes(mon.pc) && !mon.pc.Stopped? ==> |mon.tput| == |mon.lat| + 1)
    && (mon.pc.Stopped? ==> |s.col.cuts| <= |mon.tput|)
    && (mon.pc.Stopped? && mon.pending ==> s.col.cuts == mon.lat && |mon.tput| == |mon.lat| + 1)
  }

  lemma TickKeepsInStep(c: Config, s: State, m: MonEvent)
    requires InStep(s) && CanTick(s, m)
    requires s.col.exited ==> Rank(s.orch.phase) >= 5
    ensures InStep(s.(mon := ApplyTick(s, m)))
  {}

  lemma CollectKeepsInStep(c: Config, s: State, k: ColEvent)
    requires InStep(s) && Shape(c, s) && CanCollect(s, k)
    ensures InStep(ApplyCollect(c, s, k))
  {}

  lemma KeepsInStep(c: Config, s: State, a: Action)
    requires InStep(s) && Shape(c, s) && Closure(s) && Enabled(c, s, a)
    ensures InStep(Apply(c, s, a))
  {
    match a
    case Work(_, _) =>
    case Kill(_) =>
    case Main(_) =>
    case Collect(k) => CollectKeepsInStep(c, s, k);
    case Tick(m) =>
      if s.col.exited { NoSenders(c, s); }
      TickKeepsInStep(c, s, m);
  }

  /** The series a report takes are what the monitor had, give or take its last tick. */
  ghost predicate ReportInStep(s: State) {
    var r, mon, rank := s.orch.report, s.mon, Rank(s.orch.phase);
    && (rank >= 10 ==> r.tput <= mon.tput && |mon.tput| <= |r.tput| + 1
                       && (mon.pc.Awake? || mon.pc.Loaded? ==> mon.tput == r.tput)
                       && |mon.lat| + (if mon.pc.Answered? then 1 else 0) <= |r.tput|)
    && (rank >= 11 ==> r.errs <= mon.errs && |r.tput| - 1 <= |r.errs| <= |r.tput| + 1)
    && (rank >= 12 ==> r.lat <= s.col.cuts && |r.tput| - 1 <= |r.lat| <= |r.tput|)
  }

  /** Only the last three reads bring the orchestrator to them and past them. */
  lemma MainStaysEarly(c: Config, s: State, m: MainEvent)
    requires CanMain(c, s, m) && !m.ReadTput? && !m.ReadErrs? && !m.ReadLat?
    ensures Rank(ApplyMain(c, s, m).orch.phase) < 10
  {}

  lemma MainKeepsReportInStep(c: Config, s: State, m: MainEvent)
    requires ReportInStep(s) && InStep(s) && Shape(c, s) && CanMain(c, s, m)
    ensures ReportInStep(ApplyMain(c, s, m))
  {
    var t := ApplyMain(c, s, m);
    if !m.ReadTput? && !m.ReadErrs? && !m.ReadLat? {
      MainStaysEarly(c, s, m);
    }
  }

  lemma TickKeepsReportInStep(c: Config, s: State, m: MonEvent)
    requires ReportInStep(s) && InStep(s) && Shape(c, s) && CanTick(s, m)
    ensures ReportInStep(s.(mon := ApplyTick(s, m)))
  {}

  lemma KeepsReportInStep(c: Config, s: State, a: Action)
    requires ReportInStep(s) && InStep(s) && Shape(c, s) && Closure(s) && Enabled(c, s, a)
    ensures ReportInStep(Apply(c, s, a))
  {
    match a
    case Work(_, _) =>
    case Kill(_) =>
    case Main(m) => MainKeepsReportInStep(c, s, m);
    case Collect(_) => assert Rank(s.orch.phase) < 8;
    case Tick(m) => TickKeepsReportInStep(c, s, m);
  }

  // ---- all together ----

  ghost predicate Inv(c: Config, start: Store, s: State) {
    && Shape(c, s) && Joins(s) && Closure(s)
    && Samples(s) && Read(c, s) && Windows(c, s) && Totals(s)
    && Accounted(c, start, s) && Bounded(c, s) && Announced(c, s)
    && Telescopes(s) && InStep(s) && ReportInStep(s)
  }

  lemma InitInv(c: Config, start: Store)
    requires ValidConfig(c)
    ensures Inv(c, start, Init(start))
  {
    var s := Init(start);
    assert [] + Drain(start, c.keys) == Drain(start, c.keys);
  }

  lemma StepInv(c: Config, start: Store, s: State, a: Action)
    requires ValidConfig(c) && Inv(c, start, s) && Enabled(c, s, a)
    ensures Inv(c, start, Apply(c, s, a))
  {
    KeepsShape(c, s, a);
    KeepsJoins(c, s, a);
    KeepsClosure(c, s, a);
    KeepsSamples(c, s, a);
    KeepsRead(c, s, a);
    KeepsWindows(c, s, a);
    KeepsTotals(c, s, a);
    KeepsJobs(c, start, s, a);
    KeepsBounded(c, s, a);
    KeepsAnnounced(c, s, a);
    KeepsTelescopes(c, s, a);
    KeepsInStep(c, s, a);
    KeepsReportInStep(c, s, a);
  }

  lemma {:induction false} RunInv(c: Config, start: Store, s: State, acts: seq<Action>, t: State)
    requires ValidConfig(c) && Inv(c, start, s) && Runs(c, s, acts, t)
    ensures Inv(c, start, t)
    decreases |acts|
  {
    Unroll(c, s, acts, t);
    if acts != [] {
      StepInv(c, start, s, acts[0]);
      RunInv(c, start, Apply(c, s, acts[0]), acts[1..], t);
    }
  }

  lemma ReachableInv(c: Config, start: Store, s: State)
    requires ValidConfig(c) && Reachable(c, start, s)
    ensures Inv(c, start, s)
  {
    var acts :| Runs(c, Init(start), acts, s);
    InitInv(c, start);
    RunInv(c, start, Init(start), acts, s);
  }

  lemma ReachableShape(c: Config, start: Store, s: State)
    requires ValidConfig(c) && Reachable(c, start, s)
    ensures Shape(c, s) && Joins(s) && Closure(s)
  {
    ReachableInv(c, start, s);
  }

  /** What the totals of a report and the target rest on. */
  lemma ReachableTotals(c: Config, start: Store, s: State)
    requires ValidConfig(c) && Reachable(c, start, s)
    ensures Joins(s) && Totals(s) && Announced(c, s)
  {
    ReachableInv(c, start, s);
  }

  /** What the series of a report rest on. */
  lemma ReachableSeries(c: Config, start: Store, s: State)
    requires ValidConfig(c) && Reachable(c, start, s)
    ensures Totals(s) && Telescopes(s) && ReportInStep(s)
  {
    ReachableInv(c, start, s);
  }

  lemma ReachableInStep(c: Config, start: Store, s: State)
    requires ValidConfig(c) && Reachable(c, start, s)
    ensures Shape(c, s) && InStep(s)
  {
    ReachableInv(c, start, s);
  }
}
