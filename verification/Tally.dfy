// Sums over the workers of a trial, and what one worker's step does to them.
module Tally {
  import opened Wrappers
  import opened Job
  import opened Protocol

  function Total(ws: seq<PC>, weight: PC -> nat): nat {
    if ws == [] then 0 else Total(ws[..|ws| - 1], weight) + weight(ws[|ws| - 1])
  }

  lemma {:induction false} TotalPlace(ws: seq<PC>, i: nat, pc: PC, weight: PC -> nat)
    requires i < |ws|
    ensures Total(ws[i := pc], weight) == Total(ws, weight) - weight(ws[i]) + weight(pc)
  {
    var n := |ws| - 1;
    var after := ws[i := pc];
    if i == n {
      assert after[..n] == ws[..n];
    } else {
      TotalPlace(ws[..n], i, pc, weight);
      assert after[..n] == ws[..n][i := pc];
    }
  }

  lemma TotalSpawn(ws: seq<PC>, pc: PC, weight: PC -> nat)
    ensures Total(ws + [pc], weight) == Total(ws, weight) + weight(pc)
  {
    assert (ws + [pc])[..|ws|] == ws;
  }

  lemma {:induction false} TotalAtLeast(ws: seq<PC>, i: nat, weight: PC -> nat)
    requires i < |ws|
    ensures weight(ws[i]) <= Total(ws, weight)
  {
    var n := |ws| - 1;
    if i < n {
      TotalAtLeast(ws[..n], i, weight);
    }
  }

  lemma {:induction false} TotalZero(ws: seq<PC>, weight: PC -> nat)
    requires forall i | 0 <= i < |ws| :: weight(ws[i]) == 0
    ensures Total(ws, weight) == 0
  {
    if ws != [] {
      TotalZero(ws[..|ws| - 1], weight);
    }
  }

  lemma {:induction false} TotalBound(ws: seq<PC>, weight: PC -> nat, most: nat)
    requires forall pc :: weight(pc) <= most
    ensures Total(ws, weight) <= most * |ws|
  {
    if ws != [] {
      TotalBound(ws[..|ws| - 1], weight, most);
    }
  }

  lemma {:induction false} TotalWitness(ws: seq<PC>, weight: PC -> nat) returns (i: nat)
    requires Total(ws, weight) > 0
    ensures i < |ws| && weight(ws[i]) > 0
  {
    var n := |ws| - 1;
    if weight(ws[n]) > 0 {
      i := n;
    } else {
      i := TotalWitness(ws[..n], weight);
    }
  }

  /** Holds a sender. */
  function Live(pc: PC): nat { if pc.Gone? then 0 else 1 }

  /** Has sent its sample or counted its error, and not yet counted the job. */
  function Between(pc: PC): nat { if pc.Counting? then 1 else 0 }

  /** Has passed the target check, and not yet counted the job it then took. */
  function Past(pc: PC): nat {
    if pc.Blocked? || pc.InFlight? || pc.Handling? || pc.Counting? then 1 else 0
  }

  /** Stands between reaching the target and signalling it. */
  function Announcing(pc: PC): nat { if pc.Signalling? then 1 else 0 }

  /** Has a job in hand. */
  function InHand(pc: PC): nat {
    if pc.InFlight? || pc.Handling? || pc.Counting? then 1 else 0
  }

  function JobOf(pc: PC): Option<Payload> {
    match pc
    case InFlight(job) => Some(job)
    case Handling(job) => Some(job)
    case Counting(job) => Some(job)
    case _ => None
  }

  function Bag(job: Option<Payload>): multiset<Payload> {
    match job
    case None => multiset{}
    case Some(j) => multiset{j}
  }

  /** The job whose sample or error is in, but not yet its count. */
  function UncountedJob(pc: PC): Option<Payload> {
    if pc.Counting? then Some(pc.job) else None
  }

  /** The jobs that `pick` finds in workers' hands. */
  function Gather(ws: seq<PC>, pick: PC -> Option<Payload>): multiset<Payload> {
    if ws == [] then multiset{} else Gather(ws[..|ws| - 1], pick) + Bag(pick(ws[|ws| - 1]))
  }

  /** The jobs in workers' hands. */
  function Held(ws: seq<PC>): multiset<Payload> { Gather(ws, JobOf) }

  lemma SwapOuter(ws: multiset<Payload>, ws': multiset<Payload>, front: multiset<Payload>,
                  x: multiset<Payload>, y: multiset<Payload>)
    requires ws == front + x && ws' == front + y
    ensures ws' + x == ws + y
  {}

  lemma SwapInner(ws: multiset<Payload>, ws': multiset<Payload>,
                  front: multiset<Payload>, front': multiset<Payload>,
                  x: multiset<Payload>, y: multiset<Payload>, last: multiset<Payload>)
    requires ws == front + last && ws' == front' + last
    requires front' + x == front + y
    ensures ws' + x == ws + y
  {
    forall j ensures (ws' + x)[j] == (ws + y)[j] {
      assert (front' + x)[j] == (front + y)[j];
    }
  }

  lemma GatherSpawn(ws: seq<PC>, pc: PC, pick: PC -> Option<Payload>)
    ensures Gather(ws + [pc], pick) == Gather(ws, pick) + Bag(pick(pc))
  {
    assert (ws + [pc])[..|ws|] == ws;
  }

  lemma GatherPlaceLast(front: seq<PC>, last: PC, pc: PC, pick: PC -> Option<Payload>)
    ensures Gather(front + [pc], pick) + Bag(pick(last)) == Gather(front + [last], pick) + Bag(pick(pc))
  {
    GatherSpawn(front, last, pick);
    GatherSpawn(front, pc, pick);
    SwapOuter(Gather(front + [last], pick), Gather(front + [pc], pick), Gather(front, pick),
              Bag(pick(last)), Bag(pick(pc)));
  }

  lemma GatherPlaceInner(front: seq<PC>, front': seq<PC>, last: PC, was: PC, pc: PC,
                         pick: PC -> Option<Payload>)
    requires Gather(front', pick) + Bag(pick(was)) == Gather(front, pick) + Bag(pick(pc))
    ensures Gather(front' + [last], pick) + Bag(pick(was))
         == Gather(front + [last], pick) + Bag(pick(pc))
  {
    GatherSpawn(front, last, pick);
    GatherSpawn(front', last, pick);
    SwapInner(Gather(front + [last], pick), Gather(front' + [last], pick),
              Gather(front, pick), Gather(front', pick),
              Bag(pick(was)), Bag(pick(pc)), Bag(pick(last)));
  }

  lemma {:induction false} GatherPlace(ws: seq<PC>, i: nat, pc: PC, pick: PC -> Option<Payload>)
    requires i < |ws|
    ensures Gather(ws[i := pc], pick) + Bag(pick(ws[i])) == Gather(ws, pick) + Bag(pick(pc))
  {
    var n := |ws| - 1;
    var front, last := ws[..n], ws[n];
    assert ws == front + [last];
    if i == n {
      assert ws[i := pc] == front + [pc];
      GatherPlaceLast(front, last, pc, pick);
    } else {
      assert ws[i := pc] == front[i := pc] + [last];
      GatherPlace(front, i, pc, pick);
      GatherPlaceInner(front, front[i := pc], last, ws[i], pc, pick);
    }
  }

  lemma GatherSame(ws: seq<PC>, ws': seq<PC>, pick: PC -> Option<Payload>)
    requires Gather(ws', pick) + multiset{} == Gather(ws, pick) + multiset{}
    ensures Gather(ws', pick) == Gather(ws, pick)
  {
    assert Gather(ws', pick) == Gather(ws', pick) + multiset{};
  }

  /** What a step keeps in balance for one worker, it keeps for all of them. */
  lemma Cancel(p: multiset<Payload>, p': multiset<Payload>, held: multiset<Payload>,
               held': multiset<Payload>, out: multiset<Payload>, out': multiset<Payload>,
               h: multiset<Payload>, h': multiset<Payload>)
    requires p == held + out
    requires held' + h == held + h'
    requires p' + (out + h) == p + (out' + h')
    ensures p' == held' + out'
  {
    forall x ensures p'[x] == (held' + out')[x] {
      assert (held' + h)[x] == (held + h')[x];
      assert (p' + (out + h))[x] == (p + (out' + h'))[x];
    }
  }

  lemma {:induction false} HeldSize(ws: seq<PC>)
    ensures |Held(ws)| == Total(ws, InHand)
  {
    if ws != [] {
      HeldSize(ws[..|ws| - 1]);
    }
  }

  lemma {:induction false} UncountedSize(ws: seq<PC>)
    ensures |Gather(ws, UncountedJob)| == Total(ws, Between)
  {
    if ws != [] {
      UncountedSize(ws[..|ws| - 1]);
    }
  }

  /** A job still to be counted is in somebody's hands. */
  lemma {:induction false} UncountedIsHeld(ws: seq<PC>)
    ensures Gather(ws, UncountedJob) <= Held(ws)
  {
    if ws != [] {
      UncountedIsHeld(ws[..|ws| - 1]);
      assert Bag(UncountedJob(ws[|ws| - 1])) <= Bag(JobOf(ws[|ws| - 1]));
    }
  }

  // ---- no element twice ----

  lemma {:induction false} DistinctCount(s: seq<Payload>, x: Payload)
    requires Distinct(s)
    ensures multiset(s)[x] <= 1
  {
    if s != [] {
      var front, last := s[..|s| - 1], s[|s| - 1];
      DistinctCount(front, x);
      assert s == front + [last];
      assert last !in front;
    }
  }

  lemma CountDistinct(s: seq<Payload>)
    requires forall x :: multiset(s)[x] <= 1
    ensures Distinct(s)
  {
    forall a, b | 0 <= a < b < |s| ensures s[a] != s[b] {
      var front, back := s[..b], s[b..];
      assert s == front + back;
      assert front[a] in multiset(front) && back[0] in multiset(back);
      assert multiset(s)[s[b]] == multiset(front)[s[b]] + multiset(back)[s[b]];
    }
  }

  lemma DistinctPart(part: seq<Payload>, whole: seq<Payload>)
    requires multiset(part) <= multiset(whole) && Distinct(whole)
    ensures Distinct(part) && forall p | p in part :: p in whole
  {
    forall x ensures multiset(part)[x] <= 1 { DistinctCount(whole, x); }
    CountDistinct(part);
    forall p | p in part ensures p in whole { assert p in multiset(part) && p in multiset(whole); }
  }
}
