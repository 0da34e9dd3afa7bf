// The collector and monitor tasks of src/main.rs run_trial as loops over what reaches
// them: the two histograms, the windows cut out of one of them, and the series.
module Recording {
  import opened Wrappers
  import opened Bytes
  import opened Broker
  import opened Protocol
  import opened Invariants
  import opened Schedules
  import opened Theorems
  import opened Worker

  /** A histogram as the values it has recorded; values above `cap` are refused. */
  class Histogram {
    const cap: nat
    var values: seq<nat>

    constructor (cap: nat)
      ensures this.cap == cap && values == []
    {
      this.cap, values := cap, [];
    }

    method Add(v: nat) returns (ok: bool)
      modifies this
      ensures values == Record(cap, old(values), v) && ok == (v <= cap)
    {
      ok := v <= cap;
      if ok {
        values := values + [v];
      }
    }

    method Reset()
      modifies this
      ensures values == []
    {
      values := [];
    }
  }

  /** What the collector's select hands it, in order, until the channel closes. */
  datatype Input = Sample(us: nat) | SnapshotRequest

  function Clamped(us: nat): nat { if us < 1 then 1 else us }

  /** The samples among the inputs. */
  function SamplesOf(inputs: seq<Input>): seq<nat> {
    if inputs == [] then []
    else
      var front, last := SamplesOf(inputs[..|inputs| - 1]), inputs[|inputs| - 1];
      if last.Sample? then front + [Clamped(last.us)] else front
  }

  datatype Cutting = Cutting(windows: seq<seq<nat>>, current: seq<nat>)

  /** The windows the inputs cut, and the one under way. */
  function Cut(cap: nat, inputs: seq<Input>): Cutting {
    if inputs == [] then Cutting([], [])
    else
      var front, last := Cut(cap, inputs[..|inputs| - 1]), inputs[|inputs| - 1];
      if last.Sample? then front.(current := Record(cap, front.current, Clamped(last.us)))
      else Cutting(front.windows + [front.current], [])
  }

  /** However requests fall between samples, no sample is missed or counted twice. */
  lemma {:induction false} CutPartitions(cap: nat, inputs: seq<Input>)
    ensures Flatten(Cut(cap, inputs).windows) + Cut(cap, inputs).current
         == Recorded(cap, SamplesOf(inputs))
  {
    if inputs != [] {
      var front, last := inputs[..|inputs| - 1], inputs[|inputs| - 1];
      CutPartitions(cap, front);
      var before := Cut(cap, front);
      if last.Sample? {
        RecordedSnoc(cap, SamplesOf(front), Clamped(last.us));
        var v := Clamped(last.us);
        assert Flatten(before.windows) + (before.current + [v])
            == (Flatten(before.windows) + before.current) + [v];
      } else {
        FlattenSnoc(before.windows, before.current);
        assert (Flatten(before.windows) + before.current) + []
            == Flatten(before.windows) + before.current;
      }
    }
  }

  /** The collector's loop. */
  method Collect(cap: nat, inputs: seq<Input>)
    returns (hist: Histogram, perSec: Histogram, windows: seq<seq<nat>>)
    ensures fresh(hist) && fresh(perSec)
    ensures hist.values == Recorded(cap, SamplesOf(inputs))
    ensures Cutting(windows, perSec.values) == Cut(cap, inputs)
    ensures hist.values == Flatten(windows) + perSec.values
  {
    hist := new Histogram(cap);
    perSec := new Histogram(cap);
    windows := [];
    for i := 0 to |inputs|
      invariant fresh(hist) && fresh(perSec) && hist != perSec
      invariant hist.cap == cap && perSec.cap == cap
      invariant hist.values == Recorded(cap, SamplesOf(inputs[..i]))
      invariant Cutting(windows, perSec.values) == Cut(cap, inputs[..i])
    {
      assert inputs[..i + 1][..i] == inputs[..i];
      match inputs[i] {
        case Sample(us) =>
          var v := if us < 1 then 1 else us;
          RecordedSnoc(cap, SamplesOf(inputs[..i]), v);
          var _ := hist.Add(v);
          var _ := perSec.Add(v);
        case SnapshotRequest =>
          windows := windows + [perSec.values];
          perSec.Reset();
      }
    }
    assert inputs[..|inputs|] == inputs;
    CutPartitions(cap, inputs);
  }

  /** The collector's state is what its loop makes of these inputs. */
  ghost predicate Plays(cap: nat, inputs: seq<Input>, col: Collector) {
    && col.received == SamplesOf(inputs)
    && col.hist == Recorded(cap, SamplesOf(inputs))
    && Cutting(col.cuts, col.window) == Cut(cap, inputs)
  }

  /** What a step of a trial hands the collector's loop. */
  function InputOf(c: Config, s: State, a: Action): seq<Input>
    requires Enabled(c, s, a)
  {
    if a.Collect? && a.k.Receive? then [Sample(s.sh.chan[0])]
    else if a.Collect? && a.k.Serve? then [SnapshotRequest]
    else []
  }

  /** What a schedule hands the collector's loop, in order. */
  ghost function InputsIn(c: Config, s: State, acts: seq<Action>): seq<Input>
    decreases |acts|
  {
    if acts == [] || !Enabled(c, s, acts[0]) then []
    else InputOf(c, s, acts[0]) + InputsIn(c, Apply(c, s, acts[0]), acts[1..])
  }

  lemma CollectPlays(c: Config, s: State, inputs: seq<Input>, k: ColEvent)
    requires Plays(c.cap, inputs, s.col) && Enabled(c, s, Action.Collect(k))
    ensures Plays(c.cap, inputs + InputOf(c, s, Action.Collect(k)), ApplyCollect(c, s, k).col)
  {
    match k
    case Receive =>
      var us := s.sh.chan[0];
      assert (inputs + [Sample(us)])[..|inputs|] == inputs;
      RecordedSnoc(c.cap, SamplesOf(inputs), Clamped(us));
    case Serve => assert (inputs + [SnapshotRequest])[..|inputs|] == inputs;
    case Close => assert inputs + [] == inputs;
  }

  lemma OthersPlayNothing(c: Config, s: State, a: Action)
    requires Enabled(c, s, a) && !a.Collect?
    ensures Apply(c, s, a).col == s.col && InputOf(c, s, a) == []
  {}

  lemma {:induction false} RunPlays(
      c: Config, s: State, inputs: seq<Input>, acts: seq<Action>, t: State)
    requires Plays(c.cap, inputs, s.col) && Runs(c, s, acts, t)
    ensures Plays(c.cap, inputs + InputsIn(c, s, acts), t.col)
    decreases |acts|
  {
    Unroll(c, s, acts, t);
    if acts == [] {
      assert inputs + [] == inputs;
    } else {
      var a := acts[0];
      if a.Collect? {
        CollectPlays(c, s, inputs, a.k);
      } else {
        OthersPlayNothing(c, s, a);
        assert inputs + [] == inputs;
      }
      RunPlays(c, Apply(c, s, a), inputs + InputOf(c, s, a), acts[1..], t);
      Reassociate(inputs, InputOf(c, s, a), InputsIn(c, Apply(c, s, a), acts[1..]));
    }
  }

  lemma Reassociate(a: seq<Input>, b: seq<Input>, more: seq<Input>)
    ensures (a + b) + more == a + (b + more)
  {}

  /** In every schedule of a trial the collector is where its loop would be after the
      samples and the requests that the schedule has handed it. */
  lemma CollectorIsLoop(c: Config, start: Store, acts: seq<Action>, s: State)
    requires Runs(c, Init(start), acts, s)
    ensures Plays(c.cap, InputsIn(c, Init(start), acts), s.col)
  {
    RunPlays(c, Init(start), [], acts, s);
    assert [] + InputsIn(c, Init(start), acts) == InputsIn(c, Init(start), acts);
  }

  // ---- per-second latency series ----

  /** A percentile specification: the name of its series and its value on a window. */
  datatype Spec = Spec(name: Text, quantile: seq<nat> -> nat)

  function SpecValue(spec: Spec, window: seq<nat>): nat {
    if window == [] then 0 else spec.quantile(window)
  }

  type SeriesMap = map<Text, seq<nat>>

  function SeriesAt(series: SeriesMap, name: Text): seq<nat> {
    if name in series then series[name] else []
  }

  /** One pass over the specifications: each pushes onto the series of its name. */
  function PushedSpecs(series: SeriesMap, specs: seq<Spec>, window: seq<nat>): SeriesMap {
    if specs == [] then series
    else
      var front, spec := PushedSpecs(series, specs[..|specs| - 1], window), specs[|specs| - 1];
      front[spec.name := SeriesAt(front, spec.name) + [SpecValue(spec, window)]]
  }

  /** The series after the monitor has stored the windows of `lat`, in order. */
  function SeriesOf(specs: seq<Spec>, lat: seq<seq<nat>>): SeriesMap {
    if lat == [] then map[]
    else PushedSpecs(SeriesOf(specs, lat[..|lat| - 1]), specs, lat[|lat| - 1])
  }

  /** How often a name is asked for. */
  function Asked(specs: seq<Spec>, name: Text): nat {
    if specs == [] then 0
    else Asked(specs[..|specs| - 1], name) + if specs[|specs| - 1].name == name then 1 else 0
  }

  lemma {:induction false} PassLength(
      series: SeriesMap, specs: seq<Spec>, window: seq<nat>, name: Text)
    ensures |SeriesAt(PushedSpecs(series, specs, window), name)|
         == |SeriesAt(series, name)| + Asked(specs, name)
  {
    if specs != [] {
      PassLength(series, specs[..|specs| - 1], window, name);
    }
  }

  lemma OneMoreTime(n: nat, k: nat)
    ensures (n + 1) * k == n * k + k
  {}

  /** A name listed k times gets k samples a tick: its series is k times as long as the
      number of windows, and one sample a window exactly when it is listed once. */
  lemma {:induction false} SeriesLength(specs: seq<Spec>, lat: seq<seq<nat>>, name: Text)
    ensures |SeriesAt(SeriesOf(specs, lat), name)| == |lat| * Asked(specs, name)
  {
    if lat != [] {
      var front := lat[..|lat| - 1];
      SeriesLength(specs, front, name);
      PassLength(SeriesOf(specs, front), specs, lat[|lat| - 1], name);
      OneMoreTime(|front|, Asked(specs, name));
    }
  }

  lemma {:induction false} PassSkips(
      series: SeriesMap, specs: seq<Spec>, window: seq<nat>, name: Text)
    requires Asked(specs, name) == 0
    ensures SeriesAt(PushedSpecs(series, specs, window), name) == SeriesAt(series, name)
  {
    if specs != [] {
      PassSkips(series, specs[..|specs| - 1], window, name);
    }
  }

  lemma {:induction false} PassPushes(
      series: SeriesMap, specs: seq<Spec>, window: seq<nat>, k: nat)
    requires k < |specs| && Asked(specs, specs[k].name) == 1
    ensures SeriesAt(PushedSpecs(series, specs, window), specs[k].name)
         == SeriesAt(series, specs[k].name) + [SpecValue(specs[k], window)]
  {
    var front := specs[..|specs| - 1];
    if k < |front| {
      AskedAt(front, k);
      PassPushes(series, front, window, k);
    } else {
      PassSkips(series, front, window, specs[k].name);
    }
  }

  lemma {:induction false} AskedAt(specs: seq<Spec>, k: nat)
    requires k < |specs|
    ensures Asked(specs, specs[k].name) >= 1
  {
    if k < |specs| - 1 {
      AskedAt(specs[..|specs| - 1], k);
    }
  }

  /** The i-th sample of a series listed once is its value on the i-th window. */
  lemma {:induction false} SeriesValues(specs: seq<Spec>, lat: seq<seq<nat>>, k: nat, i: nat)
    requires k < |specs| && Asked(specs, specs[k].name) == 1 && i < |lat|
    ensures |SeriesAt(SeriesOf(specs, lat), specs[k].name)| == |lat|
    ensures SeriesAt(SeriesOf(specs, lat), specs[k].name)[i]
         == if lat[i] == [] then 0 else specs[k].quantile(lat[i])
  {
    var front := lat[..|lat| - 1];
    SeriesLength(specs, lat, specs[k].name);
    SeriesLength(specs, front, specs[k].name);
    PassPushes(SeriesOf(specs, front), specs, lat[|lat| - 1], k);
    if i < |front| {
      SeriesValues(specs, front, k, i);
    }
  }

  /** In a trial, the series of a name listed once runs level with the throughput series
      or one sample behind it, and its i-th sample is taken on the i-th window cut. */
  lemma LatencyFollowsThroughput(c: Config, start: Store, s: State, specs: seq<Spec>, k: nat)
    requires ValidConfig(c) && Reachable(c, start, s)
    requires k < |specs| && Asked(specs, specs[k].name) == 1
    ensures var samples := SeriesAt(SeriesOf(specs, s.mon.lat), specs[k].name);
            && |samples| <= |s.mon.tput| <= |samples| + 1 && |samples| <= |s.col.cuts|
            && (s.mon.pc.Asleep? && !s.col.exited ==> |samples| == |s.mon.tput|)
            && forall i | 0 <= i < |samples| ::
                 samples[i] == if s.col.cuts[i] == [] then 0 else specs[k].quantile(s.col.cuts[i])
  {
    SeriesInStep(c, start, s);
    SeriesLength(specs, s.mon.lat, specs[k].name);
    forall i | 0 <= i < |s.mon.lat|
      ensures SeriesAt(SeriesOf(specs, s.mon.lat), specs[k].name)[i]
           == if s.col.cuts[i] == [] then 0 else specs[k].quantile(s.col.cuts[i])
    {
      SeriesValues(specs, s.mon.lat, k, i);
    }
  }

  /** The series a report shows under a name: for one listed k times, k samples for each
      second of the throughput series, but for the last, whose window may be missing; and
      never a sample more. */
  lemma ReportedSeries(c: Config, start: Store, s: State, specs: seq<Spec>, name: Text)
    requires ValidConfig(c) && Reachable(c, start, s) && s.orch.phase == Finished
    ensures var series := SeriesAt(SeriesOf(specs, s.orch.report.lat), name);
            || |series| == |s.orch.report.tput| * Asked(specs, name)
            || |series| == (|s.orch.report.tput| - 1) * Asked(specs, name)
  {
    ReportSeriesBounded(c, start, s);
    SeriesLength(specs, s.orch.report.lat, name);
  }

  /** In the report, the series of a name listed once is as long as the throughput series
      or one shorter, and its i-th sample is taken on the i-th window cut. */
  lemma ReportedLatency(c: Config, start: Store, s: State, specs: seq<Spec>, k: nat)
    requires ValidConfig(c) && Reachable(c, start, s) && s.orch.phase == Finished
    requires k < |specs| && Asked(specs, specs[k].name) == 1
    ensures var samples := SeriesAt(SeriesOf(specs, s.orch.report.lat), specs[k].name);
            && |s.orch.report.tput| - 1 <= |samples| <= |s.orch.report.tput|
            && |samples| <= |s.col.cuts|
            && forall i | 0 <= i < |samples| ::
                 samples[i] == if s.col.cuts[i] == [] then 0 else specs[k].quantile(s.col.cuts[i])
  {
    var lat := s.orch.report.lat;
    ReportSeriesBounded(c, start, s);
    SeriesLength(specs, lat, specs[k].name);
    forall i | 0 <= i < |lat|
      ensures SeriesAt(SeriesOf(specs, lat), specs[k].name)[i]
           == if s.col.cuts[i] == [] then 0 else specs[k].quantile(s.col.cuts[i])
    {
      SeriesValues(specs, lat, k, i);
    }
  }

  // ---- the monitor's loop body ----

  /** The two counters' growth is pushed. */
  function AfterPushes(mon: Monitor, completed: nat, errors: nat): Monitor {
    mon.(prevCompleted := completed, prevErrors := errors,
         tput := mon.tput + [completed - mon.prevCompleted],
         errs := mon.errs + [errors - mon.prevErrors])
  }

  /** A sleeping monitor after one more tick; the snapshot is None when the collector did
      not answer. */
  function AfterTick(mon: Monitor, completed: nat, errors: nat, snapshot: Option<seq<nat>>): Monitor
    requires mon.pc.Asleep?
  {
    var pushed := AfterPushes(mon, completed, errors);
    if snapshot.Some? then pushed.(lat := mon.lat + [snapshot.value]) else pushed
  }

  lemma TputIsRun(c: Config, s: State) returns (t: State)
    requires s.mon.pc.Asleep? && Rank(s.orch.phase) < 3 && s.orch.phase != Failed
    ensures Leads(c, s, t)
    ensures t == s.(mon := s.mon.(pc := TputPushed, prevCompleted := s.sh.completed,
                                  tput := s.mon.tput + [s.sh.completed - s.mon.prevCompleted]))
  {
    Stay(c, s);
    t := Go(c, s, s, Tick(WakeUp));
    t := Go(c, s, t, Tick(LoadTput));
    t := Go(c, s, t, Tick(PushTput));
  }

  /** From waking up to the push of the error delta, with nothing between. */
  lemma PushesAreRun(c: Config, s: State) returns (t: State)
    requires s.mon.pc.Asleep? && Rank(s.orch.phase) < 3 && s.orch.phase != Failed
    ensures Leads(c, s, t)
    ensures t == s.(mon := AfterPushes(s.mon, s.sh.completed, s.sh.errors).(pc := ErrsPushed))
  {
    t := TputIsRun(c, s);
    t := Go(c, s, t, Tick(LoadErrs));
    t := Go(c, s, t, Tick(PushErrs));
  }

  /** The request, the collector's answer and its storing, with nothing between. */
  lemma SnapshotIsRun(c: Config, s: State) returns (t: State)
    requires s.mon.pc.ErrsPushed? && !s.mon.pending && s.orch.phase != Failed && !s.col.exited
    ensures Leads(c, s, t)
    ensures t == s.(mon := s.mon.(pc := Asleep, lat := s.mon.lat + [s.col.window]),
                    col := s.col.(cuts := s.col.cuts + [s.col.window], window := []))
  {
    Stay(c, s);
    t := Go(c, s, s, Tick(Request));
    t := Go(c, s, t, Action.Collect(Serve));
    t := Go(c, s, t, Tick(StoreReply));
  }

  /** A tick that nothing interrupts is a sequence of the monitor's own steps and the
      collector's answer. */
  lemma TickIsRun(c: Config, s: State) returns (t: State)
    requires s.mon.pc.Asleep? && !s.mon.pending && Rank(s.orch.phase) < 3 && s.orch.phase != Failed
    ensures Leads(c, s, t)
    ensures s.col.exited ==>
              t == s.(mon := AfterTick(s.mon, s.sh.completed, s.sh.errors, None))
    ensures !s.col.exited ==>
              t == s.(mon := AfterTick(s.mon, s.sh.completed, s.sh.errors, Some(s.col.window)),
                      col := s.col.(cuts := s.col.cuts + [s.col.window], window := []))
  {
    var u := PushesAreRun(c, s);
    if s.col.exited {
      t := Go(c, s, u, Tick(Request));
    } else {
      t := SnapshotIsRun(c, u);
      GoOn(c, s, u, t);
    }
  }

  class MonitorTask {
    const specs: seq<Spec>
    var prevCompleted: nat
    var prevErrors: nat
    var tput: seq<int>
    var errs: seq<int>
    var series: SeriesMap
    ghost var lat: seq<seq<nat>>

    ghost predicate Valid(metrics: Metrics)
      reads this, metrics
    {
      && Adds(tput, 0, prevCompleted) && Adds(errs, 0, prevErrors)
      && prevCompleted <= metrics.completed && prevErrors <= metrics.errors
      && |tput| == |errs|
      && series == SeriesOf(specs, lat)
    }

    /** The task as the transition system sees it between two ticks. */
    ghost function View(): Monitor
      reads this
    {
      Monitor(Asleep, prevCompleted, prevErrors, false, tput, errs, lat)
    }

    constructor (specs: seq<Spec>, metrics: Metrics)
      ensures Valid(metrics) && View() == Monitor(Asleep, 0, 0, false, [], [], [])
      ensures this.specs == specs
    {
      this.specs := specs;
      prevCompleted, prevErrors, tput, errs, series, lat := 0, 0, [], [], map[], [];
    }

    /** One tick; the snapshot is None when the collector did not answer. */
    method Tick(metrics: Metrics, snapshot: Option<seq<nat>>)
      requires Valid(metrics)
      modifies this
      ensures Valid(metrics)
      ensures View() == AfterTick(old(View()), metrics.completed, metrics.errors, snapshot)
    {
      PushDeltas(metrics);
      if snapshot.Some? {
        StoreSnapshot(snapshot.value);
      }
    }

    /** The part of a tick before the snapshot. */
    method PushDeltas(metrics: Metrics)
      requires Valid(metrics)
      modifies this
      ensures Valid(metrics)
      ensures View() == AfterPushes(old(View()), metrics.completed, metrics.errors)
    {
      var cur := metrics.completed;
      var tputDelta: nat := cur - prevCompleted;
      AddsDelta(tput, prevCompleted, cur);
      prevCompleted := cur;
      tput := tput + [tputDelta];

      var curErr := metrics.errors;
      var errDelta: nat := curErr - prevErrors;
      AddsDelta(errs, prevErrors, curErr);
      prevErrors := curErr;
      errs := errs + [errDelta];
    }

    /** The inner loop over the specifications. */
    method StoreSnapshot(snap: seq<nat>)
      requires series == SeriesOf(specs, lat)
      modifies this`series, this`lat
      ensures lat == old(lat) + [snap] && series == SeriesOf(specs, lat)
      ensures forall k | 0 <= k < |specs| && Asked(specs, specs[k].name) == 1 ::
                SeriesAt(series, specs[k].name)
                == SeriesAt(old(series), specs[k].name)
                   + [if snap == [] then 0 else specs[k].quantile(snap)]
    {
      for i := 0 to |specs|
        invariant lat == old(lat)
        invariant series == PushedSpecs(old(series), specs[..i], snap)
      {
        assert specs[..i + 1][..i] == specs[..i];
        var spec := specs[i];
        var v := if snap == [] then 0 else spec.quantile(snap);
        series := series[spec.name := SeriesAt(series, spec.name) + [v]];
      }
      assert specs[..|specs|] == specs;
      forall k | 0 <= k < |specs| && Asked(specs, specs[k].name) == 1
        ensures SeriesAt(series, specs[k].name)
             == SeriesAt(old(series), specs[k].name) + [SpecValue(specs[k], snap)]
      {
        PassPushes(old(series), specs, snap, k);
      }
      lat := lat + [snap];
      assert lat[..|lat| - 1] == old(lat);
    }
  }

  lemma AddsDelta(xs: seq<int>, prev: nat, cur: nat)
    requires Adds(xs, 0, prev) && prev <= cur
    ensures Adds(xs + [cur - prev], 0, cur)
  {
    AddsOneMore(xs, cur - prev, cur);
  }
}
