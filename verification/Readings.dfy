// Which look into which job gave which sample.
module Readings {
  import opened Wrappers
  import opened Job
  import opened Protocol
  import opened Tally

  /** The sample a reading gives: none when the job carries no marker. */
  function SampleOf(c: Config, r: Reading): seq<nat> {
    match c.decode(r.job)
    case Some(enqueued) => [LatencyUs(enqueued, r.now)]
    case None => []
  }

  function SamplesFrom(c: Config, readings: seq<Reading>): seq<nat> {
    if readings == [] then []
    else SamplesFrom(c, readings[..|readings| - 1]) + SampleOf(c, readings[|readings| - 1])
  }

  function JobsRead(readings: seq<Reading>): (r: seq<Payload>)
    ensures |r| == |readings|
    ensures forall k | 0 <= k < |r| :: r[k] == readings[k].job
  {
    seq(|readings|, k requires 0 <= k < |readings| => readings[k].job)
  }

  /** The samples sent are those of the readings, in order; and each job read is counted
      once, or about to be. */
  ghost predicate Read(c: Config, s: State) {
    && s.log.sent == SamplesFrom(c, s.log.readings)
    && multiset(JobsRead(s.log.readings))
       == Gather(s.ws, UncountedJob) + multiset(s.log.finished)
  }

  lemma SamplesFromSnoc(c: Config, readings: seq<Reading>, r: Reading)
    ensures SamplesFrom(c, readings + [r]) == SamplesFrom(c, readings) + SampleOf(c, r)
    ensures multiset(JobsRead(readings + [r])) == multiset(JobsRead(readings)) + multiset{r.job}
  {
    assert (readings + [r])[..|readings|] == readings;
    assert JobsRead(readings + [r]) == JobsRead(readings) + [r.job];
  }

  /** A worker reads a job and keeps it to count, counts the job it read, or does neither. */
  lemma ActReads(c: Config, l: Local, e: Event)
    requires Can(c, l, e)
    ensures var t := Act(c, l, e);
            if e.Decode? then
              && t.log.readings == l.log.readings + [Reading(l.pc.job, e.now)]
              && t.log.sent == l.log.sent + SampleOf(c, Reading(l.pc.job, e.now))
              && t.log.finished == l.log.finished
              && UncountedJob(l.pc) == None && UncountedJob(t.pc) == Some(l.pc.job)
            else
              && t.log.readings == l.log.readings && t.log.sent == l.log.sent
              && (if e.Increment? then
                    t.log.finished == l.log.finished + [l.pc.job]
                    && UncountedJob(l.pc) == Some(l.pc.job) && UncountedJob(t.pc) == None
                  else t.log.finished == l.log.finished && UncountedJob(t.pc) == UncountedJob(l.pc))
  {}

  ghost predicate ReadBalanced(l: Local, t: Local) {
    multiset(JobsRead(t.log.readings)) + (multiset(l.log.finished) + Bag(UncountedJob(l.pc)))
    == multiset(JobsRead(l.log.readings)) + (multiset(t.log.finished) + Bag(UncountedJob(t.pc)))
  }

  lemma ActReadBalances(c: Config, l: Local, e: Event)
    requires Can(c, l, e)
    ensures ReadBalanced(l, Act(c, l, e))
  {
    var t := Act(c, l, e);
    ActReads(c, l, e);
    if e.Decode? {
      SamplesFromSnoc(c, l.log.readings, Reading(l.pc.job, e.now));
    }
  }

  lemma WorkKeepsRead(c: Config, s: State, i: nat, e: Event)
    requires Read(c, s) && Enabled(c, s, Work(i, e))
    ensures Read(c, Apply(c, s, Work(i, e)))
  {
    var l := Local(s.sh, s.log, s.ws[i]);
    var t := Act(c, l, e);
    ActReads(c, l, e);
    ActReadBalances(c, l, e);
    if e.Decode? {
      SamplesFromSnoc(c, l.log.readings, Reading(l.pc.job, e.now));
    }
    GatherPlace(s.ws, i, t.pc, UncountedJob);
    Cancel(multiset(JobsRead(l.log.readings)), multiset(JobsRead(t.log.readings)),
           Gather(s.ws, UncountedJob), Gather(s.ws[i := t.pc], UncountedJob),
           multiset(l.log.finished), multiset(t.log.finished),
           Bag(UncountedJob(l.pc)), Bag(UncountedJob(t.pc)));
  }

  lemma KillKeepsRead(c: Config, s: State, i: nat)
    requires Read(c, s) && Enabled(c, s, Kill(i))
    ensures Read(c, Apply(c, s, Kill(i)))
  {
    var t := Dropped(Local(s.sh, s.log, s.ws[i]));
    assert t.log.readings == s.log.readings && t.log.finished == s.log.finished;
    GatherPlace(s.ws, i, Gone, UncountedJob);
    GatherSame(s.ws, s.ws[i := Gone], UncountedJob);
  }

  lemma MainKeepsRead(c: Config, s: State, m: MainEvent)
    requires Read(c, s) && CanMain(c, s, m)
    ensures Read(c, ApplyMain(c, s, m))
  {
    if m.Spawn? { GatherSpawn(s.ws, Fresh, UncountedJob); }
  }

  lemma KeepsRead(c: Config, s: State, a: Action)
    requires Read(c, s) && Enabled(c, s, a)
    ensures Read(c, Apply(c, s, a))
  {
    match a
    case Work(i, e) => WorkKeepsRead(c, s, i, e);
    case Kill(i) => KillKeepsRead(c, s, i);
    case Main(m) => MainKeepsRead(c, s, m);
    case Collect(_) =>
    case Tick(_) =>
  }

  /** With the tool's own decoding: a job whose body carries t gives one sample, counted
      from t, and no error; any other payload, foreign or malformed, gives one error and no
      sample. */
  lemma DecodeExactly(c: Config, l: Local, now: nat)
    requires c.decode == Marker && l.pc.Handling?
    ensures var t := Act(c, l, Decode(now));
            && (forall text, at: nat | BodyCarries(l.pc.job, text, at) ::
                  && t.log.sent == l.log.sent + [LatencyUs(at, now)]
                  && t.sh.chan == l.sh.chan + [LatencyUs(at, now)]
                  && t.sh.errors == l.sh.errors)
            && ((forall text, at: nat :: !BodyCarries(l.pc.job, text, at)) ==>
                  && t.log.sent == l.log.sent && t.sh.chan == l.sh.chan
                  && t.sh.errors == l.sh.errors + 1)
            && t.sh.completed == l.sh.completed
  {
    NoMarkerExactly(l.pc.job);
    forall text, at: nat | BodyCarries(l.pc.job, text, at) ensures Marker(l.pc.job) == Some(at) {
      MarkerExactly(l.pc.job, at);
    }
  }
}
