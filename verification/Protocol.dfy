// One trial (src/worker.rs, src/main.rs run_trial, src/metrics.rs) as a transition
// system. Every step that other threads can observe is a separate action: a worker's
// BRPOP, its send, its increment and its signal; the collector's and the monitor's
// steps; and the orchestrator's polls, joins and reads. A schedule is any sequence of
// enabled actions, so a statement about all schedules is about all interleavings.
module Protocol {
  import opened Wrappers
  import opened Bytes
  import opened Job
  import opened Broker

  /** `cap` is the largest value the two histograms record; `decode` reads the marker
      out of a list element. */
  datatype Config = Config(
    target: nat, workers: nat, keys: seq<Text>, cap: nat, decode: Payload -> Option<nat>)

  ghost predicate ValidConfig(c: Config) {
    c.target > 0 && c.workers > 0 && Distinct(c.keys)
  }

  // ---- workers ----

  /** Where a worker stands. Only Fresh, Blocked, InFlight and Sleeping are suspension
      points. InFlight: the server has popped a job whose reply has not arrived. */
  datatype PC =
    | Fresh
    | Top
    | AtTarget
    | Blocked
    | InFlight(job: Payload)
    | Handling(job: Payload)
    | Counting(job: Payload)
    | Signalling(ret: nat)
    | Sleeping
    | Gone

  /** What workers share. `senders` counts the live ends of the latency channel. */
  datatype Shared = Shared(
    store: Store, completed: nat, errors: nat, done: bool, shutdown: bool,
    senders: int, chan: seq<nat>)

  /** A look into a job's payload: which job, and the worker's clock at that moment. */
  datatype Reading = Reading(job: Payload, now: nat)

  /** What has happened so far, in order. */
  datatype Log = Log(
    popped: seq<Payload>, finished: seq<Payload>, lost: seq<Payload>, readings: seq<Reading>,
    sent: seq<nat>, tickets: seq<nat>, undecodable: nat, transient: nat)

  datatype Event =
    | Start | CheckShutdown | CheckTarget
    | ServerPop | Deliver | PopTimeout | PopFatal | PopTransient | Wake
    | Decode(now: nat) | Increment | Signal

  /** A worker's view: what is shared, the log, and its own place. */
  datatype Local = Local(sh: Shared, log: Log, pc: PC)

  predicate Suspended(pc: PC) { pc.Fresh? || pc.Blocked? || pc.InFlight? || pc.Sleeping? }

  predicate Can(c: Config, l: Local, e: Event) {
    match e
    case Start => l.pc.Fresh?
    case CheckShutdown => l.pc.Top?
    case CheckTarget => l.pc.AtTarget?
    case ServerPop => l.pc.Blocked? && Ready(l.sh.store, c.keys)
    case Deliver => l.pc.InFlight?
    case PopTimeout => l.pc.Blocked?
    case PopFatal => l.pc.Blocked? || l.pc.InFlight?
    case PopTransient => l.pc.Blocked? || l.pc.InFlight?
    case Wake => l.pc.Sleeping?
    case Decode(_) => l.pc.Handling?
    case Increment => l.pc.Counting?
    case Signal => l.pc.Signalling?
  }

  /** The worker's future is dropped, and its sender with it. */
  function Leave(l: Local): Local {
    l.(sh := l.sh.(senders := l.sh.senders - 1), pc := Gone)
  }

  /** A job whose reply never reached the worker is in nobody's hands any more. */
  function Lose(l: Local): Local {
    if l.pc.InFlight? then l.(log := l.log.(lost := l.log.lost + [l.pc.job])) else l
  }

  /** At least 1 even when the producer's clock runs ahead. */
  function LatencyUs(enqueued: nat, now: nat): (us: nat)
    ensures us >= 1
  {
    var us := if now >= enqueued then (now - enqueued) / 1000 else 1;
    if us < 1 then 1 else us
  }

  function Act(c: Config, l: Local, e: Event): Local
    requires Can(c, l, e)
  {
    match e
    case Start => l.(pc := Top)
    case CheckShutdown => if l.sh.shutdown then Leave(l) else l.(pc := AtTarget)
    case CheckTarget => if l.sh.completed >= c.target then Leave(l) else l.(pc := Blocked)
    case ServerPop =>
      var job := Popped(l.sh.store, c.keys);
      Local(l.sh.(store := AfterPop(l.sh.store, c.keys)),
            l.log.(popped := l.log.popped + [job]), InFlight(job))
    case Deliver => l.(pc := Handling(l.pc.job))
    case PopTimeout => l.(pc := Top)
    case PopFatal => Leave(Lose(l))
    case PopTransient =>
      Local(l.sh.(errors := l.sh.errors + 1),
            Lose(l).log.(transient := l.log.transient + 1), Sleeping)
    case Wake => l.(pc := Top)
    case Decode(now) =>
      var log := l.log.(readings := l.log.readings + [Reading(l.pc.job, now)]);
      (match c.decode(l.pc.job)
       case Some(enqueued) =>
         var us := LatencyUs(enqueued, now);
         Local(l.sh.(chan := l.sh.chan + [us]), log.(sent := log.sent + [us]), Counting(l.pc.job))
       case None =>
         Local(l.sh.(errors := l.sh.errors + 1),
               log.(undecodable := log.undecodable + 1), Counting(l.pc.job)))
    case Increment =>
      var ret := l.sh.completed + 1;
      Local(l.sh.(completed := ret),
            l.log.(finished := l.log.finished + [l.pc.job], tickets := l.log.tickets + [ret]),
            if ret >= c.target then Signalling(ret) else Top)
    case Signal => Local(l.sh.(done := true), l.log, Top)
  }

  // ---- collector and monitor ----

  /** `cuts` lists the windows handed out, whether or not anybody still wanted them. */
  datatype Collector = Collector(
    received: seq<nat>, hist: seq<nat>, window: seq<nat>, cuts: seq<seq<nat>>, exited: bool)

  /** A histogram keeps a value in range and drops any other. */
  function Record(cap: nat, hist: seq<nat>, v: nat): seq<nat> {
    if v <= cap then hist + [v] else hist
  }

  /** Asleep, Requested and Answered are the suspension points of the monitor. */
  datatype MonPC =
    | Unborn | Asleep | Awake | Loaded(delta: int) | TputPushed
    | ErrsLoaded(delta: int) | ErrsPushed | Requested | Answered(window: seq<nat>) | Stopped

  /** `pending`: a snapshot request lies unanswered in the collector's channel. */
  datatype Monitor = Monitor(
    pc: MonPC, prevCompleted: int, prevErrors: int, pending: bool,
    tput: seq<int>, errs: seq<int>, lat: seq<seq<nat>>)

  datatype MonEvent =
    | WakeUp | LoadTput | PushTput | LoadErrs | PushErrs | Request | StoreReply | ReplyLost | Stop

  // ---- orchestrator ----

  /** SawNotDone and SawNoTimer lie inside one poll of the select; Failed is the early
      return when a connection cannot be opened. */
  datatype Phase =
    | Spawning | Failed
    | Waiting | SawNotDone | SawNoTimer
    | Decided | MonitorAborted | ShutdownSet
    | Draining | Aborting | Closing
    | GotHist | GotTotals | GotTput | GotErrs | Finished

  function Rank(p: Phase): nat {
    match p
    case Spawning => 0
    case Failed => 0
    case Waiting => 1
    case SawNotDone => 1
    case SawNoTimer => 1
    case Decided => 2
    case MonitorAborted => 3
    case ShutdownSet => 4
    case Draining => 5
    case Aborting => 6
    case Closing => 7
    case GotHist => 8
    case GotTotals => 9
    case GotTput => 10
    case GotErrs => 11
    case Finished => 12
  }

  datatype Verdict = Undecided | TargetReached | TimerFired | AllExited

  datatype Report = Report(
    hist: seq<nat>, total: nat, errors: nat, tput: seq<int>, errs: seq<int>, lat: seq<seq<nat>>)

  datatype Orch = Orch(phase: Phase, verdict: Verdict, joined: seq<nat>, report: Report)

  datatype State = State(
    sh: Shared, log: Log, ws: seq<PC>, col: Collector, mon: Monitor, orch: Orch)

  datatype MainEvent =
    | Spawn | SpawnFails | FinishSpawn
    | PollDone | PollTimer(fired: bool) | Join(i: nat) | PollPending | PollAllExited
    | AbortMonitor | SetShutdown | DropSentinel | DrainDone | DrainTimeout | AbortDone
    | TakeHist | ReadTotals | ReadTput | ReadErrs | ReadLat

  datatype ColEvent = Receive | Close | Serve

  datatype Action =
    | Work(i: nat, e: Event)
    | Kill(i: nat)
    | Main(m: MainEvent)
    | Collect(k: ColEvent)
    | Tick(t: MonEvent)

  function Init(store: Store): State {
    State(
      Shared(store, 0, 0, false, false, 2, []),
      Log([], [], [], [], [], [], 0, 0),
      [],
      Collector([], [], [], [], false),
      Monitor(Unborn, 0, 0, false, [], [], []),
      Orch(Spawning, Undecided, [], Report([], 0, 0, [], [], [])))
  }

  /** The JoinSet is empty. */
  predicate AllJoined(s: State) {
    forall i | 0 <= i < |s.ws| :: i in s.orch.joined
  }

  predicate CanTick(s: State, m: MonEvent) {
    var pc := s.mon.pc;
    match m
    case WakeUp => pc.Asleep? && Rank(s.orch.phase) < 3
    case LoadTput => pc.Awake?
    case PushTput => pc.Loaded?
    case LoadErrs => pc.TputPushed?
    case PushErrs => pc.ErrsLoaded?
    case Request => pc.ErrsPushed?
    case StoreReply => pc.Answered?
    case ReplyLost => pc.Requested? && s.col.exited
    case Stop => Rank(s.orch.phase) >= 3 && (pc.Asleep? || pc.Requested? || pc.Answered?)
  }

  predicate CanMain(c: Config, s: State, m: MainEvent) {
    var p := s.orch.phase;
    match m
    case Spawn => p == Spawning && |s.ws| < c.workers
    case SpawnFails => p == Spawning && |s.ws| < c.workers
    case FinishSpawn => p == Spawning && |s.ws| == c.workers
    case PollDone => p == Waiting
    case PollTimer(_) => p == SawNotDone
    case Join(i) =>
      (p == SawNoTimer || p == Draining || p == Aborting)
      && i < |s.ws| && s.ws[i].Gone? && i !in s.orch.joined
    case PollPending => p == SawNoTimer && !AllJoined(s)
    case PollAllExited => p == SawNoTimer && AllJoined(s)
    case AbortMonitor => p == Decided
    case SetShutdown => p == MonitorAborted
    case DropSentinel => p == ShutdownSet
    case DrainDone => p == Draining && AllJoined(s)
    case DrainTimeout => p == Draining
    case AbortDone => p == Aborting && AllJoined(s)
    case TakeHist => p == Closing && s.col.exited
    case ReadTotals => p == GotHist
    case ReadTput => p == GotTotals
    case ReadErrs => p == GotTput
    case ReadLat => p == GotErrs
  }

  predicate CanCollect(s: State, k: ColEvent) {
    !s.col.exited &&
    match k
    case Receive => s.sh.chan != []
    case Close => s.sh.chan == [] && s.sh.senders == 0
    case Serve => s.mon.pending
  }

  predicate Enabled(c: Config, s: State, a: Action) {
    s.orch.phase != Failed &&
    match a
    case Work(i, e) => i < |s.ws| && Can(c, Local(s.sh, s.log, s.ws[i]), e)
    case Kill(i) => s.orch.phase == Aborting && i < |s.ws| && Suspended(s.ws[i])
    case Main(m) => CanMain(c, s, m)
    case Collect(k) => CanCollect(s, k)
    case Tick(t) => CanTick(s, t)
  }

  function ApplyTick(s: State, m: MonEvent): Monitor
    requires CanTick(s, m)
  {
    var mon := s.mon;
    match m
    case WakeUp => mon.(pc := Awake)
    case LoadTput =>
      mon.(pc := Loaded(s.sh.completed - mon.prevCompleted), prevCompleted := s.sh.completed)
    case PushTput => mon.(pc := TputPushed, tput := mon.tput + [mon.pc.delta])
    case LoadErrs =>
      mon.(pc := ErrsLoaded(s.sh.errors - mon.prevErrors), prevErrors := s.sh.errors)
    case PushErrs => mon.(pc := ErrsPushed, errs := mon.errs + [mon.pc.delta])
    case Request => if s.col.exited then mon.(pc := Asleep) else mon.(pc := Requested, pending := true)
    case StoreReply => mon.(pc := Asleep, lat := mon.lat + [mon.pc.window])
    case ReplyLost => mon.(pc := Asleep, pending := false)
    case Stop => mon.(pc := Stopped)
  }

  /** The aborted task's future is dropped at a suspension point. */
  function Dropped(l: Local): Local { Leave(Lose(l)) }

  function Place(s: State, i: nat, l: Local): State
    requires i < |s.ws|
  {
    s.(sh := l.sh, log := l.log, ws := s.ws[i := l.pc])
  }

  function Enter(s: State, p: Phase): State { s.(orch := s.orch.(phase := p)) }

  /** The orchestrator touches no counter, no buffered sample and no worker. */
  function ApplyMain(c: Config, s: State, m: MainEvent): (t: State)
    requires CanMain(c, s, m)
    ensures t.log == s.log && t.col == s.col
    ensures t.sh == s.sh.(senders := t.sh.senders, shutdown := t.sh.shutdown)
    ensures t.ws == if m.Spawn? then s.ws + [Fresh] else s.ws
    ensures t.mon == if m.FinishSpawn? then s.mon.(pc := Asleep) else s.mon
  {
    match m
    case Spawn => s.(ws := s.ws + [Fresh], sh := s.sh.(senders := s.sh.senders + 1))
    case SpawnFails => Enter(s, Failed)
    case FinishSpawn =>
      Enter(s, Waiting).(sh := s.sh.(senders := s.sh.senders - 1), mon := s.mon.(pc := Asleep))
    case PollDone =>
      if s.sh.done then s.(orch := s.orch.(phase := Decided, verdict := TargetReached))
      else Enter(s, SawNotDone)
    case PollTimer(fired) =>
      if fired then s.(orch := s.orch.(phase := Decided, verdict := TimerFired))
      else Enter(s, SawNoTimer)
    case Join(i) => s.(orch := s.orch.(joined := s.orch.joined + [i]))
    case PollPending => Enter(s, Waiting)
    case PollAllExited => s.(orch := s.orch.(phase := Decided, verdict := AllExited))
    case AbortMonitor => Enter(s, MonitorAborted)
    case SetShutdown => Enter(s, ShutdownSet).(sh := s.sh.(shutdown := true))
    case DropSentinel => Enter(s, Draining).(sh := s.sh.(senders := s.sh.senders - 1))
    case DrainDone => Enter(s, Closing)
    case DrainTimeout => Enter(s, Aborting)
    case AbortDone => Enter(s, Closing)
    case TakeHist => s.(orch := s.orch.(phase := GotHist, report := s.orch.report.(hist := s.col.hist)))
    case ReadTotals =>
      s.(orch := s.orch.(phase := GotTotals,
         report := s.orch.report.(total := s.sh.completed, errors := s.sh.errors)))
    case ReadTput =>
      s.(orch := s.orch.(phase := GotTput, report := s.orch.report.(tput := s.mon.tput)))
    case ReadErrs =>
      s.(orch := s.orch.(phase := GotErrs, report := s.orch.report.(errs := s.mon.errs)))
    case ReadLat =>
      s.(orch := s.orch.(phase := Finished, report := s.orch.report.(lat := s.mon.lat)))
  }

  /** The collector empties the channel and answers the monitor, and touches nothing else. */
  function ApplyCollect(c: Config, s: State, k: ColEvent): (t: State)
    requires CanCollect(s, k)
    ensures t.log == s.log && t.ws == s.ws && t.orch == s.orch
    ensures t.sh == s.sh.(chan := t.sh.chan)
    ensures t.mon == s.mon.(pc := t.mon.pc, pending := t.mon.pending)
  {
    match k
    case Receive =>
      var v := if s.sh.chan[0] < 1 then 1 else s.sh.chan[0];
      s.(sh := s.sh.(chan := s.sh.chan[1..]),
         col := s.col.(received := s.col.received + [v],
                       hist := Record(c.cap, s.col.hist, v),
                       window := Record(c.cap, s.col.window, v)))
    case Close => s.(col := s.col.(exited := true))
    case Serve =>
      s.(col := s.col.(cuts := s.col.cuts + [s.col.window], window := []),
         mon := s.mon.(pending := false,
                       pc := if s.mon.pc.Requested? then Answered(s.col.window) else s.mon.pc))
  }

  function Apply(c: Config, s: State, a: Action): State
    requires Enabled(c, s, a)
  {
    match a
    case Work(i, e) => Place(s, i, Act(c, Local(s.sh, s.log, s.ws[i]), e))
    case Kill(i) => Place(s, i, Dropped(Local(s.sh, s.log, s.ws[i])))
    case Main(m) => ApplyMain(c, s, m)
    case Collect(k) => ApplyCollect(c, s, k)
    case Tick(t) => s.(mon := ApplyTick(s, t))
  }

  /** The k-th action of a schedule is enabled in the k-th state and leads to the next. */
  predicate StepAt(c: Config, trace: seq<State>, acts: seq<Action>, k: nat)
    requires k < |acts| < |trace|
  {
    Enabled(c, trace[k], acts[k]) && trace[k + 1] == Apply(c, trace[k], acts[k])
  }

  /** The states that the schedule `acts` goes through, from `s` to `t`. */
  predicate IsTrace(c: Config, s: State, acts: seq<Action>, t: State, trace: seq<State>) {
    && |trace| == |acts| + 1 && trace[0] == s && trace[|acts|] == t
    && forall k {:trigger StepAt(c, trace, acts, k)} | 0 <= k < |acts| :: StepAt(c, trace, acts, k)
  }

  /** `t` is what the schedule `acts` makes of `s`. */
  ghost predicate Runs(c: Config, s: State, acts: seq<Action>, t: State) {
    exists trace: seq<State> :: IsTrace(c, s, acts, t, trace)
  }

  /** Some schedule makes `t` of `s`. */
  ghost predicate Leads(c: Config, s: State, t: State) {
    exists acts :: Runs(c, s, acts, t)
  }

  ghost predicate Reachable(c: Config, store: Store, s: State) { Leads(c, Init(store), s) }

  /** The timed_out field of the result. */
  predicate TimedOut(s: State) { s.orch.verdict != TargetReached }
}
