/**
 The same queue with its put / get-oldest / put-again idiom interleaved: any number of producer
 threads, which see the queue change between their three calls, and the consumer.

 The verifier is the only producer of its output queue; the raw queue has one producer per
 source. A step that is not enabled leaves the state alone, so a run is any sequence of steps.
 */
module Handoff {
  import DropOldest

  type Producer = nat

  /** The n-th record of a producer. */
  datatype Record = Record(producer: Producer, n: nat)

  /** Where a producer stands: its put failed and it is about to take the oldest record, or it
      has taken it and is about to put again. */
  datatype Control = Idle | Evicting(x: Record) | Retrying(x: Record)

  datatype State = State(
    max: int,
    queue: seq<Record>,
    control: map<Producer, Control>,
    produced: map<Producer, nat>,  // records each producer has made so far
    consumed: seq<Record>,
    lost: seq<Record>,
    overflows: nat)                // overflows that have run to their end

  datatype Step = Put(p: Producer) | Evict(p: Producer) | Retry(p: Producer) | Get

  function Init(max: int, producers: set<Producer>): State {
    State(max, [], map p | p in producers :: Idle, map p | p in producers :: 0, [], [], 0)
  }

  function Apply(s: State, step: Step): (r: State)
    requires s.produced.Keys == s.control.Keys
    ensures r.produced.Keys == r.control.Keys == s.control.Keys && r.max == s.max
  {
    match step
    case Put(p) =>
      if p !in s.control || !s.control[p].Idle? then s
      else
        var x := Record(p, s.produced[p]);
        var made := s.(produced := s.produced[p := s.produced[p] + 1]);
        if DropOldest.Full(s.queue, s.max) then made.(control := s.control[p := Evicting(x)])
        else made.(queue := s.queue + [x])
    case Evict(p) =>
      if p !in s.control || !s.control[p].Evicting? then s
      else if s.queue == [] then Abandon(s, p)
      else s.(queue := s.queue[1..], lost := s.lost + [s.queue[0]],
              control := s.control[p := Retrying(s.control[p].x)])
    case Retry(p) =>
      if p !in s.control || !s.control[p].Retrying? then s
      else if DropOldest.Full(s.queue, s.max) then Abandon(s, p)
      else s.(queue := s.queue + [s.control[p].x], control := s.control[p := Idle],
              overflows := s.overflows + 1)
    case Get =>
      if s.queue == [] then s
      else s.(queue := s.queue[1..], consumed := s.consumed + [s.queue[0]])
  }

  /** The except branch: the producer gives up its record. */
  function Abandon(s: State, p: Producer): State
    requires p in s.control && !s.control[p].Idle?
  {
    s.(lost := s.lost + [s.control[p].x], control := s.control[p := Idle], overflows := s.overflows + 1)
  }

  function Run(s: State, steps: seq<Step>): (r: State)
    requires s.produced.Keys == s.control.Keys
    ensures r.produced.Keys == r.control.Keys == s.control.Keys && r.max == s.max
    decreases |steps|
  {
    if steps == [] then s else Run(Apply(s, steps[0]), steps[1..])
  }

  // ---------------------------------------------------------------- every interleaving

  /** A producer has `r` in hand. */
  ghost predicate Holds(s: State, r: Record) {
    r.producer in s.control && !s.control[r.producer].Idle? && s.control[r.producer].x == r
  }

  ghost predicate Made(s: State, r: Record) {
    r.producer in s.produced && r.n < s.produced[r.producer]
  }

  ghost function Settled(s: State): seq<Record> {
    s.consumed + s.queue + s.lost
  }

  /** The records of each producer keep their order. */
  ghost predicate InOrder(q: seq<Record>) {
    forall i, j | 0 <= i < j < |q| && q[i].producer == q[j].producer :: q[i].n < q[j].n
  }

  /** `r` has settled once if it was made and its producer has let go of it, else not at all. */
  ghost predicate Accounted(s: State, r: Record) {
    multiset(Settled(s))[r] == if Made(s, r) && !Holds(s, r) then 1 else 0
  }

  /** What a producer has in hand is the last record it made. */
  ghost predicate InHand(s: State, p: Producer)
    requires p in s.control
  {
    !s.control[p].Idle? ==>
      p in s.produced && s.produced[p] > 0 && s.control[p].x == Record(p, s.produced[p] - 1)
  }

  ghost predicate Inv(s: State) {
    && s.produced.Keys == s.control.Keys
    && (s.max > 0 ==> |s.queue| <= s.max)
    && (forall p <- s.control :: InHand(s, p))
    && (forall r: Record :: Accounted(s, r))
    && InOrder(s.consumed + s.queue)
  }

  lemma InitInv(max: int, producers: set<Producer>)
    ensures Inv(Init(max, producers))
  {
  }

  /** Records in the consumer's or the queue's hands were made, and are not in a producer's hands. */
  lemma SettledMade(s: State, r: Record)
    requires Inv(s) && (r in s.consumed + s.queue || r in s.lost)
    ensures Made(s, r) && !Holds(s, r)
  {
    assert Accounted(s, r);
    assert r in Settled(s);
    assert r in multiset(Settled(s));
  }

  /** Putting the newest record of a producer at the end keeps the order. */
  lemma AppendInOrder(s: State, x: Record)
    requires Inv(s)
    requires x.producer in s.produced
    requires (Holds(s, x) && x.n + 1 == s.produced[x.producer]) || x.n == s.produced[x.producer]
    ensures InOrder(s.consumed + (s.queue + [x]))
  {
    var before := s.consumed + s.queue;
    assert s.consumed + (s.queue + [x]) == before + [x];
    forall i | 0 <= i < |before| && before[i].producer == x.producer ensures before[i].n < x.n {
      SettledMade(s, before[i]);
    }
  }

  lemma ApplyKeepsInv(s: State, step: Step)
    requires Inv(s)
    ensures Inv(Apply(s, step))
  {
    var r := Apply(s, step);
    if r != s {
      match step
      case Get => GetKeepsInv(s);
      case Put(p) => PutKeepsInv(s, p);
      case Evict(p) => if s.queue == [] { AbandonKeepsInv(s, p); } else { EvictKeepsInv(s, p); }
      case Retry(p) => if DropOldest.Full(s.queue, s.max) { AbandonKeepsInv(s, p); } else { RetryKeepsInv(s, p); }
    }
  }

  lemma GetKeepsInv(s: State)
    requires Inv(s) && s.queue != []
    ensures Inv(Apply(s, Get))
  {
    var r := Apply(s, Get);
    assert r.consumed + r.queue == s.consumed + s.queue;
    forall x: Record ensures Accounted(r, x) {
      assert Accounted(s, x);
    }
    forall p <- r.control ensures InHand(r, p) {
      assert InHand(s, p);
    }
  }

  lemma PutKeepsAccount(s: State, p: Producer, y: Record)
    requires Inv(s) && p in s.control && s.control[p].Idle?
    ensures Accounted(Apply(s, Put(p)), y)
  {
    var r := Apply(s, Put(p));
    assert Accounted(s, y);
    var x := Record(p, s.produced[p]);
    if !DropOldest.Full(s.queue, s.max) {
      SettledPut(s.consumed, s.queue, s.lost, x);
    }
    assert Made(r, y) <==> Made(s, y) || y == x;
  }

  lemma PutKeepsInv(s: State, p: Producer)
    requires Inv(s) && p in s.control && s.control[p].Idle?
    ensures Inv(Apply(s, Put(p)))
  {
    var r := Apply(s, Put(p));
    if !DropOldest.Full(s.queue, s.max) {
      AppendInOrder(s, Record(p, s.produced[p]));
    }
    forall y: Record ensures Accounted(r, y) {
      PutKeepsAccount(s, p, y);
    }
    forall x <- r.control ensures InHand(r, x) {
      assert InHand(s, x);
    }
  }

  lemma RetryKeepsInv(s: State, p: Producer)
    requires Inv(s) && p in s.control && s.control[p].Retrying? && !DropOldest.Full(s.queue, s.max)
    ensures Inv(Apply(s, Retry(p)))
  {
    var r := Apply(s, Retry(p));
    var x := s.control[p].x;
    assert InHand(s, p);
    AppendInOrder(s, x);
    SettledPut(s.consumed, s.queue, s.lost, x);
    forall y: Record ensures Accounted(r, y) {
      assert Accounted(s, y);
    }
    forall x <- r.control ensures InHand(r, x) {
      assert InHand(s, x);
    }
  }

  lemma EvictSettled(consumed: seq<Record>, queue: seq<Record>, lost: seq<Record>)
    requires queue != []
    ensures multiset(consumed + queue[1..] + (lost + [queue[0]])) == multiset(consumed + queue + lost)
  {
    assert queue == [queue[0]] + queue[1..];
  }

  lemma InOrderWithout(consumed: seq<Record>, queue: seq<Record>)
    requires queue != [] && InOrder(consumed + queue)
    ensures InOrder(consumed + queue[1..])
  {
    var q, r, n := consumed + queue, consumed + queue[1..], |consumed|;
    assert forall i | 0 <= i < |r| :: r[i] == q[if i < n then i else i + 1];
  }

  lemma EvictKeepsInv(s: State, p: Producer)
    requires Inv(s) && p in s.control && s.control[p].Evicting? && s.queue != []
    ensures Inv(Apply(s, Evict(p)))
  {
    var r := Apply(s, Evict(p));
    InOrderWithout(s.consumed, s.queue);
    EvictSettled(s.consumed, s.queue, s.lost);
    forall y: Record ensures Accounted(r, y) {
      assert Accounted(s, y);
    }
    forall x <- r.control ensures InHand(r, x) {
      assert InHand(s, x);
    }
  }

  lemma AbandonKeepsInv(s: State, p: Producer)
    requires Inv(s) && p in s.control && !s.control[p].Idle?
    ensures Inv(Abandon(s, p))
  {
    var r := Abandon(s, p);
    var x := s.control[p].x;
    assert InHand(s, p);
    assert Settled(r) == Settled(s) + [x];
    forall y: Record ensures Accounted(r, y) {
      assert Accounted(s, y);
    }
    forall x <- r.control ensures InHand(r, x) {
      assert InHand(s, x);
    }
  }

  lemma SettledPut(consumed: seq<Record>, queue: seq<Record>, lost: seq<Record>, x: Record)
    ensures multiset(consumed + (queue + [x]) + lost) == multiset(consumed + queue + lost) + multiset{x}
  {
    assert consumed + (queue + [x]) + lost == consumed + queue + [x] + lost;
  }

  lemma {:induction false} RunKeepsInv(s: State, steps: seq<Step>)
    requires Inv(s)
    ensures Inv(Run(s, steps))
    decreases |steps|
  {
    if steps != [] {
      ApplyKeepsInv(s, steps[0]);
      RunKeepsInv(Apply(s, steps[0]), steps[1..]);
    }
  }

  /** Under every interleaving: the length never exceeds a positive maximum; each record made is
      in exactly one of consumed, queued, lost and in a producer's hands, and there once; what
      was consumed followed by what is queued keeps every producer's order. */
  lemma EveryInterleaving(max: int, producers: set<Producer>, steps: seq<Step>, r: Record)
    ensures var s := Run(Init(max, producers), steps);
            && (max > 0 ==> |s.queue| <= max)
            && multiset(s.consumed)[r] + multiset(s.queue)[r] + multiset(s.lost)[r]
               + (if Holds(s, r) then 1 else 0)
               == (if Made(s, r) then 1 else 0)
            && InOrder(s.consumed + s.queue)
  {
    InitInv(max, producers);
    RunKeepsInv(Init(max, producers), steps);
    var s := Run(Init(max, producers), steps);
    assert Accounted(s, r);
    if Holds(s, r) {
      assert InHand(s, r.producer);
    }
  }

  // ---------------------------------------------------------------- what an overflow loses

  /** With a single producer nobody else puts, so the room made by the eviction is still there. */
  ghost predicate OneLoss(s: State, p: Producer) {
    && s.control.Keys == {p}
    && (s.control[p].Retrying? && s.max > 0 ==> |s.queue| < s.max)
    && |s.lost| == s.overflows + (if s.control[p].Retrying? then 1 else 0)
  }

  lemma {:induction false} RunOneLoss(s: State, p: Producer, steps: seq<Step>)
    requires Inv(s) && OneLoss(s, p)
    ensures OneLoss(Run(s, steps), p)
    decreases |steps|
  {
    if steps != [] {
      ApplyKeepsInv(s, steps[0]);
      assert OneLoss(Apply(s, steps[0]), p);
      RunOneLoss(Apply(s, steps[0]), p, steps[1..]);
    }
  }

  /** A single producer loses exactly one record by each completed overflow, and has lost one
      more exactly while it is about to put again; without a bound it loses none. */
  lemma SingleProducerLosses(max: int, p: Producer, steps: seq<Step>)
    ensures var s := Run(Init(max, {p}), steps);
            |s.lost| == s.overflows + (if s.control[p].Retrying? then 1 else 0)
  {
    InitInv(max, {p});
    RunOneLoss(Init(max, {p}), p, steps);
  }

  ghost function Retriers(s: State): set<Producer> {
    set p | p in s.control && s.control[p].Retrying?
  }

  /** A producer puts again, and the room it had made is taken. */
  predicate FindsFull(s: State, step: Step) {
    step.Retry? && step.p in s.control && s.control[step.p].Retrying? && DropOldest.Full(s.queue, s.max)
  }

  /** A producer comes to take the oldest record, and there is none. */
  predicate FindsEmpty(s: State, step: Step) {
    step.Evict? && step.p in s.control && s.control[step.p].Evicting? && s.queue == []
  }

  function FullRetries(s: State, steps: seq<Step>): nat
    requires s.produced.Keys == s.control.Keys
    decreases |steps|
  {
    if steps == [] then 0
    else (if FindsFull(s, steps[0]) then 1 else 0) + FullRetries(Apply(s, steps[0]), steps[1..])
  }

  lemma ApplyLosses(s: State, step: Step)
    requires s.produced.Keys == s.control.Keys
    ensures var r := Apply(s, step);
            |r.lost| - r.overflows - |Retriers(r)|
              == |s.lost| - s.overflows - |Retriers(s)| + (if FindsFull(s, step) then 1 else 0)
    ensures Apply(s, step).overflows >= s.overflows + (if FindsFull(s, step) then 1 else 0)
  {
    var r := Apply(s, step);
    var before, after := Retriers(s), Retriers(r);
    if |r.lost| > |s.lost| && r.overflows == s.overflows {
      assert after == before + {step.p} && step.p !in before;
    } else if r.overflows > s.overflows && s.control[step.p].Retrying? {
      assert after == before - {step.p} && step.p in before;
    } else {
      assert after == before;
    }
  }

  lemma {:induction false} RunLosses(s: State, steps: seq<Step>)
    requires s.produced.Keys == s.control.Keys
    ensures var r := Run(s, steps);
            |r.lost| - r.overflows - |Retriers(r)| == |s.lost| - s.overflows - |Retriers(s)| + FullRetries(s, steps)
    ensures Run(s, steps).overflows >= s.overflows + FullRetries(s, steps)
    decreases |steps|
  {
    if steps != [] {
      ApplyLosses(s, steps[0]);
      RunLosses(Apply(s, steps[0]), steps[1..]);
    }
  }

  /** With any producers: a completed overflow loses one record, one more is lost for each producer
      about to put again, and one more for each overflow whose second put finds the queue full. */
  lemma ManyProducersLosses(max: int, producers: set<Producer>, steps: seq<Step>)
    ensures var s := Run(Init(max, producers), steps);
            && |s.lost| == s.overflows + |Retriers(s)| + FullRetries(Init(max, producers), steps)
            && (|s.lost| == s.overflows + |Retriers(s)| <==> FullRetries(Init(max, producers), steps) == 0)
            && FullRetries(Init(max, producers), steps) <= s.overflows
  {
    assert Retriers(Init(max, producers)) == {};
    RunLosses(Init(max, producers), steps);
  }

  /** The record a producer has in hand is the one that is lost, not the oldest, exactly when the
      producer finds nothing to take or no room to put. */
  lemma OwnRecordLostIff(s: State, step: Step, p: Producer)
    requires Inv(s) && p in s.control && !s.control[p].Idle?
    ensures s.control[p].x in Apply(s, step).lost
       <==> (FindsEmpty(s, step) || FindsFull(s, step)) && step.p == p
  {
    var x, r := s.control[p].x, Apply(s, step);
    assert InHand(s, p);
    if x in s.lost {
      SettledMade(s, x);
      assert false;
    }
    if |r.lost| > |s.lost| && r.overflows == s.overflows {
      if x == s.queue[0] {
        SettledMade(s, x);
        assert false;
      }
    } else if r.overflows > s.overflows && step.p != p {
      assert InHand(s, step.p);
    }
  }

  function Gets(steps: seq<Step>): nat {
    if steps == [] then 0 else (if steps[0].Get? then 1 else 0) + Gets(steps[1..])
  }

  /** While the only producer waits to take the oldest record, the consumer alone moves. */
  lemma {:induction false} OnlyGets(s: State, p: Producer, steps: seq<Step>)
    requires s.produced.Keys == s.control.Keys == {p} && s.control[p].Evicting?
    requires forall i | 0 <= i < |steps| :: steps[i] != Evict(p)
    ensures var r, k := Run(s, steps), if Gets(steps) < |s.queue| then Gets(steps) else |s.queue|;
            r.queue == s.queue[k..] && r.control == s.control && r.lost == s.lost && r.max == s.max
    decreases |steps|
  {
    if steps != [] {
      OnlyGets(Apply(s, steps[0]), p, steps[1..]);
    }
  }

  lemma {:induction false} RunSnoc(s: State, steps: seq<Step>, last: Step)
    requires s.produced.Keys == s.control.Keys
    ensures Run(s, steps + [last]) == Apply(Run(s, steps), last)
    decreases |steps|
  {
    if steps == [] {
      assert steps + [last] == [last];
      assert [last][1..] == [];
      assert Run(s, [last]) == Run(Apply(s, last), []);
    } else {
      assert (steps + [last])[1..] == steps[1..] + [last];
      RunSnoc(Apply(s, steps[0]), steps[1..], last);
    }
  }

  /** The only producer of a bounded queue, whose put has just failed, loses its own record exactly
      when the consumer takes all the queued ones before it comes to take the oldest; otherwise
      it has made room and is about to put its record. */
  lemma OwnRecordLostToConsumerIff(max: int, p: Producer, before: seq<Step>, between: seq<Step>)
    requires var s := Run(Init(max, {p}), before); s.control[p].Idle? && DropOldest.Full(s.queue, max)
    requires forall i | 0 <= i < |between| :: between[i] != Evict(p)
    ensures var s := Run(Init(max, {p}), before);
            var x, r := Record(p, s.produced[p]), Run(Apply(s, Put(p)), between + [Evict(p)]);
            && (x in r.lost <==> Gets(between) >= max)
            && (Gets(between) < max ==> r.control[p] == Retrying(x) && |r.queue| < max)
  {
    InitInv(max, {p});
    RunKeepsInv(Init(max, {p}), before);
    var s := Run(Init(max, {p}), before);
    var t := Apply(s, Put(p));
    ApplyKeepsInv(s, Put(p));
    OnlyGets(t, p, between);
    RunKeepsInv(t, between);
    RunSnoc(t, between, Evict(p));
    OwnRecordLostIff(Run(t, between), Evict(p), p);
  }

  /** Two producers: the second fills the room the first has just made, and one overflow of the
      first loses both the oldest record and its own. */
  lemma TwoProducersCanLoseTwo()
    ensures var s := Run(Init(1, {0, 1}), [Put(0)] + ([Put(0)] + ([Evict(0)] + ([Put(1)] + [Retry(0)]))));
            s.overflows == 1 && s.lost == [Record(0, 0), Record(0, 1)] && s.queue == [Record(1, 0)]
  {
    var s1 := Apply(Init(1, {0, 1}), Put(0));
    RunFour(s1, Put(0), Evict(0), Put(1), Retry(0));
    TwoLost();
    RunCons(Init(1, {0, 1}), Put(0), [Put(0)] + ([Evict(0)] + ([Put(1)] + [Retry(0)])));
  }

  lemma TwoLost()
    ensures var s1 := Apply(Init(1, {0, 1}), Put(0));
            var s := Apply(Apply(Apply(Apply(s1, Put(0)), Evict(0)), Put(1)), Retry(0));
            s.overflows == 1 && s.lost == [Record(0, 0), Record(0, 1)] && s.queue == [Record(1, 0)]
  {
    var s1 := Apply(Init(1, {0, 1}), Put(0));
    assert s1.queue == [Record(0, 0)] && s1.control[0] == Idle && s1.control[1] == Idle;
    var s2 := Apply(s1, Put(0));
    assert s2.control[0] == Evicting(Record(0, 1)) && s2.control[1] == Idle && s2.queue == [Record(0, 0)];
    var s3 := Apply(s2, Evict(0));
    assert s3.queue == [] && s3.control[0] == Retrying(Record(0, 1)) && s3.control[1] == Idle;
    var s4 := Apply(s3, Put(1));
    assert s4.queue == [Record(1, 0)] && s4.control[0] == Retrying(Record(0, 1));
  }

  lemma RunFour(s: State, a: Step, b: Step, c: Step, d: Step)
    requires s.produced.Keys == s.control.Keys
    ensures Run(s, [a] + ([b] + ([c] + [d]))) == Apply(Apply(Apply(Apply(s, a), b), c), d)
  {
    RunCons(s, a, [b] + ([c] + [d]));
    RunCons(Apply(s, a), b, [c] + [d]);
    RunCons(Apply(Apply(s, a), b), c, [d]);
    RunCons(Apply(Apply(Apply(s, a), b), c), d, []);
    assert [d] + [] == [d];
  }

  lemma RunCons(s: State, a: Step, rest: seq<Step>)
    requires s.produced.Keys == s.control.Keys
    ensures Run(s, [a] + rest) == Run(Apply(s, a), rest)
  {
    assert ([a] + rest)[1..] == rest;
  }

  /** The consumer may empty the queue after the put has failed: the eviction then finds nothing,
      and the new record is lost although there is room for it. */
  lemma NewRecordLostToEmptyQueue()
    ensures exists steps: seq<Step> ::
              var s := Run(Init(1, {0}), steps);
              s.overflows == 1 && s.lost == [Record(0, 1)] && s.queue == [] && s.consumed == [Record(0, 0)]
  {
    var s0 := Init(1, {0});
    var s1 := Apply(s0, Put(0));
    var s2 := Apply(s1, Put(0));
    var s3 := Apply(s2, Get);
    assert s1.queue == [Record(0, 0)] && s1.control[0] == Idle;
    assert s2.control[0] == Evicting(Record(0, 1)) && s2.queue == [Record(0, 0)];
    assert s3.queue == [] && s3.control[0] == Evicting(Record(0, 1));
    RunFour(s0, Put(0), Put(0), Get, Evict(0));
  }
}
