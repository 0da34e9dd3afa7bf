// src/worker.rs and the counters of src/metrics.rs as objects. One worker running with
// nobody interfering does what the transition system says, step by step.
module Worker {
  import opened Job
  import opened Broker
  import opened Protocol

  /** The atomic counters. */
  class Metrics {
    var completed: nat
    var errors: nat

    constructor ()
      ensures completed == 0 && errors == 0
    {
      completed, errors := 0, 0;
    }

    /** Returns the new value. */
    method IncCompleted() returns (n: nat)
      modifies this
      ensures completed == old(completed) + 1 && n == completed && errors == old(errors)
    {
      completed := completed + 1;
      n := completed;
    }

    method IncError()
      modifies this
      ensures errors == old(errors) + 1 && completed == old(completed)
    {
      errors := errors + 1;
    }
  }

  /** The unbounded latency channel, with its live senders. */
  class LatencyChannel {
    var queue: seq<nat>
    var senders: int

    constructor (senders: int)
      ensures queue == [] && this.senders == senders
    {
      queue, this.senders := [], senders;
    }

    method Send(us: nat)
      modifies this
      ensures queue == old(queue) + [us] && senders == old(senders)
    {
      queue := queue + [us];
    }

    method DropSender()
      modifies this
      ensures senders == old(senders) - 1 && queue == old(queue)
    {
      senders := senders - 1;
    }
  }

  /** A shared boolean: the watch channel's value, or the shutdown flag. */
  class Flag {
    var value: bool

    constructor ()
      ensures !value
    {
      value := false;
    }

    method Set()
      modifies this
      ensures value
    {
      value := true;
    }
  }

  /** How one BRPOP comes back. `stop`: the flag is set by the time the round begins. */
  datatype Reply = Data | Nothing | Fatal | Transient

  datatype Round = Round(stop: bool, reply: Reply, now: nat)

  /** How run ends; StillPolling when the script of replies is used up first. */
  datatype Outcome = Done | ConnectionLost | StillPolling

  // ---- what the methods are proved against ----

  /** The count of a job, and the signal that it may call for. */
  function Count(c: Config, l: Local): (t: Local)
    requires l.pc.Counting?
    ensures t.pc.Top?
  {
    var counted := Act(c, l, Increment);
    if counted.pc.Signalling? then Act(c, counted, Signal) else counted
  }

  /** handle_message as the steps it takes. */
  function Handle(c: Config, l: Local, now: nat): (t: Local)
    requires l.pc.Handling?
    ensures t.pc.Top?
  {
    Count(c, Act(c, l, Decode(now)))
  }

  /** What a blocked worker makes of a reply. */
  function Answer(c: Config, l: Local, reply: Reply, now: nat): (t: Local)
    requires l.pc.Blocked?
    ensures t.pc.Top? || t.pc.Gone?
  {
    match reply
    case Data =>
      if Ready(l.sh.store, c.keys) then
        Handle(c, Act(c, Act(c, l, ServerPop), Deliver), now)
      else Act(c, l, PopTimeout)
    case Nothing => Act(c, l, PopTimeout)
    case Fatal => Act(c, l, PopFatal)
    case Transient => Act(c, Act(c, l, PopTransient), Wake)
  }

  function WithStop(l: Local, stop: bool): Local {
    l.(sh := l.sh.(shutdown := l.sh.shutdown || stop))
  }

  /** One turn of the loop. */
  function Turn(c: Config, l: Local, r: Round): (t: Local)
    requires l.pc.Top?
    ensures t.pc.Top? || t.pc.Gone?
  {
    var a := Act(c, WithStop(l, r.stop), CheckShutdown);
    if a.pc.Gone? then a
    else
      var b := Act(c, a, CheckTarget);
      if b.pc.Gone? then b else Answer(c, b, r.reply, r.now)
  }

  /** The loop over a script of rounds. */
  function Turns(c: Config, l: Local, rounds: seq<Round>): Local
    requires l.pc.Top? || l.pc.Gone?
    decreases |rounds|
  {
    if rounds == [] || l.pc.Gone? then l else Turns(c, Turn(c, l, rounds[0]), rounds[1..])
  }

  // ---- how far a script of data takes a worker ----

  /** Every round brings what the lists have, and nobody asks the worker to stop. */
  predicate AllData(rounds: seq<Round>) {
    forall i | 0 <= i < |rounds| :: rounds[i].reply == Data && !rounds[i].stop
  }

  function Min(a: nat, b: nat): nat { if a < b then a else b }

  /** From l to t the first m listed jobs have been taken and counted, in order. */
  predicate CountsFirst(c: Config, l: Local, m: nat, t: Local) {
    var listed := Drain(l.sh.store, c.keys);
    && m <= |listed| && Drain(t.sh.store, c.keys) == listed[m..]
    && t.sh.completed == l.sh.completed + m
    && t.log.finished == l.log.finished + listed[..m]
    && t.sh.shutdown == l.sh.shutdown
  }

  /** How many jobs n rounds of data count: until the rounds, the lists or the target give
      out. */
  function DataCount(c: Config, l: Local, n: nat): nat
    requires l.sh.completed <= c.target
  {
    Min(Min(n, |Drain(l.sh.store, c.keys)|), c.target - l.sh.completed)
  }

  /** Where n rounds of data lead from l; the worker leaves in the round after the one that
      reaches the target. */
  ghost predicate Reaches(c: Config, l: Local, n: nat, t: Local)
    requires l.sh.completed <= c.target
  {
    var m := DataCount(c, l, n);
    CountsFirst(c, l, m, t) && (t.pc.Gone? <==> l.sh.completed + m == c.target && m < n)
  }

  ghost predicate DataCounts(c: Config, l: Local, rounds: seq<Round>, t: Local) {
    Distinct(c.keys) && !l.sh.shutdown && l.sh.completed <= c.target && AllData(rounds) ==>
      Reaches(c, l, |rounds|, t)
  }

  lemma CountsNone(c: Config, l: Local, t: Local)
    requires t.sh.store == l.sh.store && t.sh.completed == l.sh.completed
    requires t.log.finished == l.log.finished && t.sh.shutdown == l.sh.shutdown
    ensures CountsFirst(c, l, 0, t)
  {
    assert l.log.finished + Drain(l.sh.store, c.keys)[..0] == l.log.finished;
  }

  lemma CountsOn(c: Config, l: Local, k: nat, t: Local, m: nat, u: Local)
    requires CountsFirst(c, l, k, t) && CountsFirst(c, t, m, u)
    ensures CountsFirst(c, l, k + m, u)
  {
    var listed := Drain(l.sh.store, c.keys);
    assert listed[..k] + listed[k..][..m] == listed[..k + m];
    assert l.log.finished + listed[..k] + listed[k..][..m]
        == l.log.finished + (listed[..k] + listed[k..][..m]);
  }

  /** Short of the shutdown flag and the target, a turn is an answer. */
  lemma TurnAnswers(c: Config, l: Local, r: Round)
    requires l.pc.Top? && !l.sh.shutdown && !r.stop
    ensures Turn(c, l, r)
         == if l.sh.completed >= c.target then Leave(l.(pc := AtTarget))
            else Answer(c, l.(pc := Blocked), r.reply, r.now)
  {
    assert WithStop(l, false) == l;
  }

  lemma HandleCounts(c: Config, l: Local, now: nat)
    requires l.pc.Handling?
    ensures var t := Handle(c, l, now);
            && t.sh.completed == l.sh.completed + 1 && t.log.finished == l.log.finished + [l.pc.job]
            && t.sh.store == l.sh.store && t.sh.shutdown == l.sh.shutdown && t.pc.Top?
  {}

  lemma DataAnswer(c: Config, l: Local, now: nat)
    requires Distinct(c.keys) && l.pc.Blocked?
    ensures var t, listed := Answer(c, l, Data, now), Drain(l.sh.store, c.keys);
            t.pc.Top? && CountsFirst(c, l, if listed == [] then 0 else 1, t)
  {
    PopTakesHead(l.sh.store, c.keys);
    var t := Answer(c, l, Data, now);
    if Ready(l.sh.store, c.keys) {
      var taken := Act(c, Act(c, l, ServerPop), Deliver);
      HandleCounts(c, taken, now);
      assert t.log.finished == l.log.finished + [Popped(l.sh.store, c.keys)];
      assert Drain(l.sh.store, c.keys)[..1] == [Popped(l.sh.store, c.keys)];
    } else {
      CountsNone(c, l, t);
    }
  }

  lemma DataTurn(c: Config, l: Local, r: Round)
    requires Distinct(c.keys) && l.pc.Top? && !l.sh.shutdown && l.sh.completed < c.target
    requires !r.stop && r.reply == Data
    ensures Turn(c, l, r).pc.Top?
    ensures CountsFirst(c, l, if Drain(l.sh.store, c.keys) == [] then 0 else 1, Turn(c, l, r))
  {
    TurnAnswers(c, l, r);
    DataAnswer(c, l.(pc := Blocked), r.now);
  }

  lemma NoRounds(c: Config, l: Local)
    requires l.pc.Top? && l.sh.completed <= c.target
    ensures Reaches(c, l, 0, l)
  {
    CountsNone(c, l, l);
  }

  lemma AtTargetRounds(c: Config, l: Local, rounds: seq<Round>)
    requires l.pc.Top? && !l.sh.shutdown && l.sh.completed == c.target
    requires AllData(rounds) && rounds != []
    ensures Reaches(c, l, |rounds|, Turns(c, l, rounds))
  {
    TurnAnswers(c, l, rounds[0]);
    CountsNone(c, l, Turn(c, l, rounds[0]));
  }

  lemma ReachesNext(c: Config, l: Local, t: Local, n: nat, u: Local)
    requires l.sh.completed < c.target
    requires CountsFirst(c, l, if Drain(l.sh.store, c.keys) == [] then 0 else 1, t)
    requires t.sh.completed <= c.target && Reaches(c, t, n, u)
    ensures Reaches(c, l, n + 1, u)
  {
    CountsOn(c, l, if Drain(l.sh.store, c.keys) == [] then 0 else 1, t, DataCount(c, t, n), u);
  }

  lemma {:induction false} RoundsCount(c: Config, l: Local, rounds: seq<Round>)
    requires l.pc.Top? && Distinct(c.keys) && !l.sh.shutdown && l.sh.completed <= c.target
    requires AllData(rounds)
    ensures Reaches(c, l, |rounds|, Turns(c, l, rounds))
    decreases |rounds|
  {
    if rounds == [] {
      NoRounds(c, l);
    } else if l.sh.completed == c.target {
      AtTargetRounds(c, l, rounds);
    } else {
      var rest := rounds[1..];
      var t := FirstTurn(c, l, rounds);
      RoundsCount(c, t, rest);
      ReachesNext(c, l, t, |rest|, Turns(c, t, rest));
    }
  }

  lemma FirstTurn(c: Config, l: Local, rounds: seq<Round>) returns (t: Local)
    requires Distinct(c.keys) && l.pc.Top? && !l.sh.shutdown && l.sh.completed < c.target
    requires rounds != [] && AllData(rounds)
    ensures t.pc.Top? && AllData(rounds[1..]) && |rounds| == |rounds[1..]| + 1
    ensures Turns(c, l, rounds) == Turns(c, t, rounds[1..])
    ensures CountsFirst(c, l, if Drain(l.sh.store, c.keys) == [] then 0 else 1, t)
  {
    t := Turn(c, l, rounds[0]);
    DataTurn(c, l, rounds[0]);
  }

  lemma DataRounds(c: Config, l: Local, rounds: seq<Round>)
    requires l.pc.Top?
    ensures DataCounts(c, l, rounds, Turns(c, l, rounds))
  {
    if Distinct(c.keys) && !l.sh.shutdown && l.sh.completed <= c.target && AllData(rounds) {
      RoundsCount(c, l, rounds);
    }
  }

  // ---- the worker ----

  class LoadWorker {
    const cfg: Config
    const metrics: Metrics
    const latency: LatencyChannel
    const done: Flag
    const shutdown: Flag
    const redis: Redis
    ghost var log: Log

    constructor (cfg: Config, metrics: Metrics, latency: LatencyChannel, done: Flag,
                 shutdown: Flag, redis: Redis, ghost log: Log)
      requires done != shutdown
      ensures this.cfg == cfg && this.metrics == metrics && this.latency == latency
      ensures this.done == done && this.shutdown == shutdown && this.redis == redis
      ensures this.log == log
    {
      this.cfg, this.metrics, this.latency := cfg, metrics, latency;
      this.done, this.shutdown, this.redis, this.log := done, shutdown, redis, log;
    }

    ghost function Repr(): set<object> {
      {this, metrics, latency, done, shutdown, redis}
    }

    ghost predicate Valid()
      reads Repr()
    {
      done != shutdown && redis.Valid()
    }

    /** The objects as the transition system sees them, for a worker standing at pc. */
    ghost function View(pc: PC): Local
      reads Repr()
    {
      Local(Shared(redis.lists, metrics.completed, metrics.errors, done.value, shutdown.value,
                   latency.senders, latency.queue), log, pc)
    }

    /** The first half of handle_message: a sample sent, or an error counted. */
    method ReadMarker(payload: Payload, now: nat)
      requires Valid()
      modifies this, metrics, latency
      ensures Valid()
      ensures View(Counting(payload)) == Act(cfg, old(View(Handling(payload))), Decode(now))
      ensures metrics.completed == old(metrics.completed)
      ensures match cfg.decode(payload)
              case Some(enqueuedAt) =>
                latency.queue == old(latency.queue) + [LatencyUs(enqueuedAt, now)]
                && metrics.errors == old(metrics.errors)
              case None =>
                latency.queue == old(latency.queue) && metrics.errors == old(metrics.errors) + 1
    {
      log := log.(readings := log.readings + [Reading(payload, now)]);
      match cfg.decode(payload) {
        case Some(enqueuedAt) =>
          var latencyUs := if now >= enqueuedAt then (now - enqueuedAt) / 1000 else 1;
          var clamped := if latencyUs < 1 then 1 else latencyUs;
          latency.Send(clamped);
          log := log.(sent := log.sent + [clamped]);
        case None =>
          metrics.IncError();
          log := log.(undecodable := log.undecodable + 1);
      }
    }

    /** The second half: the job counted, and done signalled from the target on. */
    method CountJob(payload: Payload)
      requires Valid()
      modifies this, metrics, done
      ensures Valid()
      ensures View(Top) == Count(cfg, old(View(Counting(payload))))
      ensures metrics.completed == old(metrics.completed) + 1 && metrics.errors == old(metrics.errors)
      ensures done.value == (old(done.value) || metrics.completed >= cfg.target)
    {
      var n := metrics.IncCompleted();
      log := log.(finished := log.finished + [payload], tickets := log.tickets + [n]);
      if n >= cfg.target {
        done.Set();
      }
    }

    /** One job counted; one sample sent or one error counted; done signalled from the
        target on. */
    method HandleMessage(payload: Payload, now: nat)
      requires Valid()
      modifies this, metrics, latency, done
      ensures Valid()
      ensures View(Top) == Handle(cfg, old(View(Handling(payload))), now)
      ensures metrics.completed == old(metrics.completed) + 1
      ensures match cfg.decode(payload)
              case Some(enqueuedAt) =>
                latency.queue == old(latency.queue) + [LatencyUs(enqueuedAt, now)]
                && metrics.errors == old(metrics.errors)
              case None =>
                latency.queue == old(latency.queue) && metrics.errors == old(metrics.errors) + 1
      ensures done.value == (old(done.value) || metrics.completed >= cfg.target)
      ensures log.finished == old(log.finished) + [payload] && log.popped == old(log.popped)
    {
      ReadMarker(payload, now);
      CountJob(payload);
    }

    /** BRPOP finds a job, or finds that somebody else has taken it. */
    method HandleData(now: nat)
      requires Valid()
      modifies this, metrics, latency, done, redis
      ensures Valid()
      ensures View(Top) == Answer(cfg, old(View(Blocked)), Data, now)
      ensures !old(Ready(redis.lists, cfg.keys)) ==> View(Top) == old(View(Top))
      ensures old(Ready(redis.lists, cfg.keys)) ==>
                var job := old(Popped(redis.lists, cfg.keys));
                && redis.lists == old(AfterPop(redis.lists, cfg.keys))
                && metrics.completed == old(metrics.completed) + 1
                && log.popped == old(log.popped) + [job]
                && log.finished == old(log.finished) + [job]
                && (match cfg.decode(job)
                    case Some(enqueuedAt) =>
                      latency.queue == old(latency.queue) + [LatencyUs(enqueuedAt, now)]
                      && metrics.errors == old(metrics.errors)
                    case None =>
                      latency.queue == old(latency.queue)
                      && metrics.errors == old(metrics.errors) + 1)
                && done.value == (old(done.value) || metrics.completed >= cfg.target)
    {
      var popped := redis.BrPop(cfg.keys);
      if popped.Some? {
        log := log.(popped := log.popped + [popped.value]);
        HandleMessage(popped.value, now);
      }
    }

    /** One reply to a BRPOP; afterwards the worker is back at the top, or gone. A job to be
        had is taken from its list, counted, and sampled or found unreadable; a transient
        failure is counted; a lost connection drops the sender; and nothing else happens. */
    method HandleReply(reply: Reply, now: nat) returns (lost: bool)
      requires Valid()
      modifies Repr()
      ensures Valid()
      ensures lost <==> reply.Fatal?
      ensures View(if lost then Gone else Top) == Answer(cfg, old(View(Blocked)), reply, now)
      ensures reply.Data? && old(Ready(redis.lists, cfg.keys)) ==>
                var job := old(Popped(redis.lists, cfg.keys));
                && redis.lists == old(AfterPop(redis.lists, cfg.keys))
                && metrics.completed == old(metrics.completed) + 1
                && log.popped == old(log.popped) + [job]
                && log.finished == old(log.finished) + [job]
                && (match cfg.decode(job)
                    case Some(enqueuedAt) =>
                      latency.queue == old(latency.queue) + [LatencyUs(enqueuedAt, now)]
                      && metrics.errors == old(metrics.errors)
                    case None =>
                      latency.queue == old(latency.queue)
                      && metrics.errors == old(metrics.errors) + 1)
                && done.value == (old(done.value) || metrics.completed >= cfg.target)
      ensures reply.Nothing? || (reply.Data? && !old(Ready(redis.lists, cfg.keys))) ==>
                View(Top) == old(View(Top))
      ensures reply.Transient? ==>
                View(Top).sh == old(View(Top).sh.(errors := metrics.errors + 1))
                && log == old(log.(transient := log.transient + 1))
      ensures reply.Fatal? ==>
                View(Top).sh == old(View(Top).sh.(senders := latency.senders - 1))
                && log == old(log)
    {
      lost := false;
      match reply {
        case Data =>
          HandleData(now);
        case Nothing =>
        case Fatal =>
          latency.DropSender();
          lost := true;
        case Transient =>
          metrics.IncError();
          log := log.(transient := log.transient + 1);
      }
    }

    /** One turn of the loop. */
    method TakeTurn(r: Round) returns (outcome: Outcome)
      requires Valid()
      modifies Repr()
      ensures Valid()
      ensures View(if outcome.StillPolling? then Top else Gone) == Turn(cfg, old(View(Top)), r)
      ensures r.stop || old(shutdown.value) ==> outcome == Done
      ensures old(metrics.completed) >= cfg.target ==> outcome == Done
    {
      if r.stop {
        shutdown.Set();
      }
      if shutdown.value {
        latency.DropSender();
        return Done;
      }
      if metrics.completed >= cfg.target {
        latency.DropSender();
        return Done;
      }
      var lost := HandleReply(r.reply, r.now);
      outcome := if lost then ConnectionLost else StillPolling;
    }

    /** The dequeue loop, against a script of what BRPOP answers in each round. */
    method Run(rounds: seq<Round>) returns (outcome: Outcome)
      requires Valid()
      modifies Repr()
      ensures Valid()
      ensures View(if outcome.StillPolling? then Top else Gone)
           == Turns(cfg, old(View(Top)), rounds)
      ensures DataCounts(cfg, old(View(Top)), rounds, View(if outcome.StillPolling? then Top else Gone))
    {
      DataRounds(cfg, View(Top), rounds);
      var i := 0;
      while i < |rounds|
        invariant 0 <= i <= |rounds| && Valid()
        invariant Turns(cfg, old(View(Top)), rounds) == Turns(cfg, View(Top), rounds[i..])
      {
        assert rounds[i..][0] == rounds[i] && rounds[i..][1..] == rounds[i + 1..];
        outcome := TakeTurn(rounds[i]);
        if !outcome.StillPolling? {
          return;
        }
        i := i + 1;
      }
      outcome := StillPolling;
    }
  }

  // ---- the worker alone is a run of the transition system ----

  /** The events of a local run, in order. */
  ghost predicate LocalRun(c: Config, l: Local, events: seq<Event>, t: Local)
    decreases |events|
  {
    if events == [] then l == t
    else Can(c, l, events[0]) && LocalRun(c, Act(c, l, events[0]), events[1..], t)
  }

  lemma {:induction false} LocalRunMore(
      c: Config, l: Local, events: seq<Event>, t: Local, e: Event)
    requires LocalRun(c, l, events, t) && Can(c, t, e)
    ensures LocalRun(c, l, events + [e], Act(c, t, e))
    decreases |events|
  {
    if events == [] {
      assert events + [e] == [e] && [e][1..] == [];
    } else {
      assert (events + [e])[0] == events[0] && (events + [e])[1..] == events[1..] + [e];
      LocalRunMore(c, Act(c, l, events[0]), events[1..], t, e);
    }
  }

  /** handle_message is a decode, an increment, and a signal from the target on. */
  lemma HandleIsRun(c: Config, l: Local, before: seq<Event>, m: Local, now: nat)
    returns (events: seq<Event>)
    requires LocalRun(c, l, before, m) && m.pc.Handling?
    ensures LocalRun(c, l, events, Handle(c, m, now))
    ensures events == before + [Decode(now), Increment]
                      + if m.sh.completed + 1 >= c.target then [Signal] else []
  {
    var a := Act(c, m, Decode(now));
    var b := Act(c, a, Increment);
    LocalRunMore(c, l, before, m, Decode(now));
    LocalRunMore(c, l, before + [Decode(now)], a, Increment);
    events := before + [Decode(now)] + [Increment];
    if b.pc.Signalling? {
      LocalRunMore(c, l, events, b, Signal);
      events := events + [Signal];
    }
  }

  /** The steps that handle a job, when `counted` are counted before it. */
  function HandleEvents(c: Config, counted: nat, now: nat): seq<Event> {
    [Decode(now), Increment] + if counted + 1 >= c.target then [Signal] else []
  }

  /** The steps that each kind of reply stands for. */
  function ReplyEvents(c: Config, l: Local, reply: Reply, now: nat): seq<Event> {
    match reply
    case Data =>
      if Ready(l.sh.store, c.keys) then
        [ServerPop, Deliver] + HandleEvents(c, l.sh.completed, now)
      else [PopTimeout]
    case Nothing => [PopTimeout]
    case Fatal => [PopFatal]
    case Transient => [PopTransient, Wake]
  }

  lemma AnswerIsRun(c: Config, l: Local, before: seq<Event>, m: Local, reply: Reply, now: nat)
    requires LocalRun(c, l, before, m) && m.pc.Blocked?
    ensures LocalRun(c, l, before + ReplyEvents(c, m, reply, now), Answer(c, m, reply, now))
  {
    if reply.Data? && Ready(m.sh.store, c.keys) {
      var popped := Act(c, m, ServerPop);
      LocalRunMore(c, l, before, m, ServerPop);
      LocalRunMore(c, l, before + [ServerPop], popped, Deliver);
      var events := HandleIsRun(c, l, before + [ServerPop] + [Deliver], Act(c, popped, Deliver), now);
      assert events == before + ReplyEvents(c, m, reply, now);
    } else if reply.Transient? {
      LocalRunMore(c, l, before, m, PopTransient);
      LocalRunMore(c, l, before + [PopTransient], Act(c, m, PopTransient), Wake);
      assert before + [PopTransient] + [Wake] == before + [PopTransient, Wake];
    } else {
      LocalRunMore(c, l, before, m, if reply.Fatal? then PopFatal else PopTimeout);
    }
  }

  /** One turn of the loop is exactly these of the worker's own steps: a look at the
      shutdown flag; unless it is set, a look at the target; and short of that, a BRPOP
      and what its reply asks for. */
  lemma TurnIsRun(c: Config, l: Local, r: Round) returns (events: seq<Event>)
    requires l.pc.Top?
    ensures LocalRun(c, WithStop(l, r.stop), events, Turn(c, l, r))
    ensures events
         == [CheckShutdown]
            + if l.sh.shutdown || r.stop then []
              else [CheckTarget]
                   + if l.sh.completed >= c.target then [] else ReplyEvents(c, l, r.reply, r.now)
  {
    var start := WithStop(l, r.stop);
    var a := Act(c, start, CheckShutdown);
    LocalRunMore(c, start, [], start, CheckShutdown);
    events := [] + [CheckShutdown];
    if !a.pc.Gone? {
      LocalRunMore(c, start, events, a, CheckTarget);
      events := events + [CheckTarget];
      var b := Act(c, a, CheckTarget);
      if !b.pc.Gone? {
        AnswerIsRun(c, start, events, b, r.reply, r.now);
        events := events + ReplyEvents(c, b, r.reply, r.now);
      }
    }
  }
}
