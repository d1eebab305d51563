/**
 The poll of src/event_intelligence/nse_poller.py: the watermark with its thirty minutes of slack,
 the seen-set, the seen file and the bounded queue.

 Filing times are minutes. A poll is given what the fetch returned and which writes fail. A filing
 without an id stands for one whose conversion raises, because a required field is missing; the
 exception leaves the poll and ends the thread.
 */
module NsePoller {
  import opened Containers
  import opened SeenSet
  import DropOldest

  datatype Filing = Filing(id: Option<Id>, filedAt: int)

  const SLACK := 30

  /** The ids for which writing the seen file fails, and those for which appending the replay
      artefact fails. */
  datatype Faults = Faults(unsaved: set<Id>, unlogged: set<Id>)

  const NO_FAULTS := Faults({}, {})

  /** `replay` is the audit trail, `dispatched` everything dispatched since the beginning; `down` is
      a thread that raised. */
  datatype Poller = Poller(seen: set<Id>, file: Option<set<Id>>, replay: seq<Id>, watermark: Option<int>,
                           queue: seq<Id>, dispatched: seq<Filing>, down: bool)

  predicate Skipped(cutoff: Option<int>, f: Filing) {
    cutoff.Some? && f.filedAt < cutoff.value
  }

  function Raised(watermark: Option<int>, filedAt: int): Option<int> {
    if watermark.None? || filedAt > watermark.value then Some(filedAt - SLACK) else watermark
  }

  /** One filing of a poll. */
  function One(c: Poller, cutoff: Option<int>, f: Filing, faults: Faults, max: int): Poller {
    if c.down || Skipped(cutoff, f) then c
    else if f.id.None? then c.(down := true)
    else if f.id.value in c.seen then c
    else
      var id := f.id.value;
      c.(seen := c.seen + {id},
         file := if id in faults.unsaved then c.file else Some(c.seen + {id}),
         replay := if id in faults.unlogged then c.replay else c.replay + [id],
         queue := DropOldest.Offer(c.queue, max, id),
         dispatched := c.dispatched + [f],
         watermark := Raised(c.watermark, f.filedAt))
  }

  function Polled(c: Poller, cutoff: Option<int>, filings: seq<Filing>, faults: Faults, max: int): Poller {
    if filings == [] then c
    else One(Polled(c, cutoff, filings[..|filings| - 1], faults, max), cutoff, filings[|filings| - 1], faults, max)
  }

  // ---------------------------------------------------------------- the watermark

  /** The watermark is thirty minutes before some dispatched filing. */
  ghost predicate FromDispatched(c: Poller) {
    c.watermark.Some? ==> exists f <- c.dispatched :: c.watermark.value == f.filedAt - 30
  }

  lemma {:induction false} PolledFromDispatched(c: Poller, cutoff: Option<int>,
      filings: seq<Filing>, faults: Faults, max: int)
    requires FromDispatched(c)
    ensures FromDispatched(Polled(c, cutoff, filings, faults, max))
    ensures c.dispatched <= Polled(c, cutoff, filings, faults, max).dispatched
  {
    if filings != [] {
      var n := |filings| - 1;
      PolledFromDispatched(c, cutoff, filings[..n], faults, max);
      var b, r := Polled(c, cutoff, filings[..n], faults, max), Polled(c, cutoff, filings, faults, max);
      if r.watermark == b.watermark && b.watermark.Some? {
        var f :| f in b.dispatched && b.watermark.value == f.filedAt - 30;
        assert f in r.dispatched;
      } else if r.dispatched != b.dispatched {
        assert filings[n] in r.dispatched;
      }
    }
  }

  datatype Event = Poll(filings: seq<Filing>, faults: Faults) | Started(readable: bool) | NewDay

  /** A poll, a restart of the thread, or a new day. */
  function Happens(c: Poller, e: Event, max: int): Poller {
    match e
    case Poll(filings, faults) => if c.down then c else Polled(c, c.watermark, filings, faults, max)
    case Started(readable) => if c.down then c.(seen := Loaded(c.file, readable), down := false) else c
    case NewDay => c.(file := None)
  }

  function History(c: Poller, events: seq<Event>, max: int): Poller
    decreases |events|
  {
    if events == [] then c else History(Happens(c, events[0], max), events[1..], max)
  }

  lemma {:induction false} HistoryFromDispatched(c: Poller, events: seq<Event>, max: int)
    requires FromDispatched(c)
    ensures FromDispatched(History(c, events, max))
    decreases |events|
  {
    if events != [] {
      if events[0].Poll? && !c.down {
        PolledFromDispatched(c, c.watermark, events[0].filings, events[0].faults, max);
      }
      HistoryFromDispatched(Happens(c, events[0], max), events[1..], max);
    }
  }

  const FRESH := Poller({}, None, [], None, [], [], true)

  /** In every history, a filing less than thirty minutes older than the newest one dispatched, or
      exactly that, is never skipped by the watermark. */
  lemma NeverSkipsRecent(events: seq<Event>, max: int, f: Filing)
    ensures var c := History(FRESH, events, max);
            (forall g <- c.dispatched :: f.filedAt >= g.filedAt - 30) ==> !Skipped(c.watermark, f)
  {
    HistoryFromDispatched(FRESH, events, max);
  }

  /** A poll moves the watermark back by at most thirty minutes. */
  lemma {:induction false} WatermarkFallsAtMostSlack(c: Poller, cutoff: Option<int>,
      filings: seq<Filing>, faults: Faults, max: int)
    requires cutoff == c.watermark
    ensures var r := Polled(c, cutoff, filings, faults, max);
            && (c.watermark.Some? ==> r.watermark.Some? && r.watermark.value >= c.watermark.value - 30)
            && (c.watermark.None? && r.watermark.Some? ==> |r.dispatched| > |c.dispatched|)
    ensures |c.dispatched| <= |Polled(c, cutoff, filings, faults, max).dispatched|
  {
    if filings != [] {
      WatermarkFallsAtMostSlack(c, cutoff, filings[..|filings| - 1], faults, max);
    }
  }

  /** A dispatch lowers the watermark exactly when the filing is newer than it by less than thirty
      minutes; thirty minutes or more raise it or leave it, and an older filing does not touch it. */
  lemma DispatchLowersIff(c: Poller, cutoff: Option<int>, f: Filing, faults: Faults, max: int)
    requires !c.down && !Skipped(cutoff, f) && f.id.Some? && f.id.value !in c.seen && c.watermark.Some?
    ensures var w, r := c.watermark.value, One(c, cutoff, f, faults, max);
            && r.dispatched == c.dispatched + [f] && r.watermark.Some?
            && (r.watermark.value < w <==> w < f.filedAt < w + 30)
            && (r.watermark.value > w <==> f.filedAt > w + 30)
  {
  }

  /** It does fall: by all of the thirty minutes when a filing at the watermark itself follows one
      minute-later filing in the same fetch. */
  lemma WatermarkFalls(c: Poller, a: Id, b: Id, t: int, max: int)
    requires c.watermark == Some(t) && !c.down && a != b && a !in c.seen && b !in c.seen
    ensures Polled(c, Some(t), [Filing(Some(a), t + 1), Filing(Some(b), t)], NO_FAULTS, max).watermark
         == Some(t - 30)
  {
    var filings := [Filing(Some(a), t + 1), Filing(Some(b), t)];
    var first := One(c, Some(t), filings[0], NO_FAULTS, max);
    assert filings[..1] == [filings[0]] && filings[..1][..0] == [];
    assert Polled(c, Some(t), filings[..1], NO_FAULTS, max) == first;
    assert One(first, Some(t), filings[1], NO_FAULTS, max).watermark == Some(t - 30);
  }

  // ---------------------------------------------------------------- what a poll dispatches

  ghost function IdsOf(filings: seq<Filing>): set<Id> {
    set f <- filings | f.id.Some? :: f.id.value
  }

  lemma IdsOfSnoc(filings: seq<Filing>, f: Filing)
    requires f.id.Some?
    ensures IdsOf(filings + [f]) == IdsOf(filings) + {f.id.value}
  {
    var t := filings + [f];
    forall id | id in IdsOf(filings) + {f.id.value} ensures id in IdsOf(t) {
      if id == f.id.value {
        assert t[|filings|] == f && f in t;
      } else {
        var g :| g in filings && g.id == Some(id);
        assert g in t;
      }
    }
  }

  /** The ids dispatched by a poll are new, all different, and exactly what the set gains. */
  ghost predicate Gained(c: Poller, r: Poller) {
    && c.dispatched <= r.dispatched
    && var gained := r.dispatched[|c.dispatched|..];
       && (forall f <- gained :: f.id.Some?)
       && IdsOf(gained) !! c.seen
       && r.seen == c.seen + IdsOf(gained)
       && (forall i, j | 0 <= i < j < |gained| :: gained[i].id != gained[j].id)
  }

  lemma {:induction false} PolledGains(c: Poller, cutoff: Option<int>, filings: seq<Filing>, faults: Faults, max: int)
    ensures Gained(c, Polled(c, cutoff, filings, faults, max))
  {
    if filings == [] {
      assert c.dispatched[|c.dispatched|..] == [];
    } else {
      var n := |filings| - 1;
      PolledGains(c, cutoff, filings[..n], faults, max);
      OneGains(c, Polled(c, cutoff, filings[..n], faults, max), cutoff, filings[n], faults, max);
    }
  }

  lemma OneGains(c: Poller, b: Poller, cutoff: Option<int>, f: Filing, faults: Faults, max: int)
    requires Gained(c, b)
    ensures Gained(c, One(b, cutoff, f, faults, max))
  {
    var r := One(b, cutoff, f, faults, max);
    if r.dispatched != b.dispatched {
      var gained := b.dispatched[|c.dispatched|..];
      assert r.dispatched[|c.dispatched|..] == gained + [f];
      IdsOfSnoc(gained, f);
      forall i | 0 <= i < |gained| ensures gained[i].id != f.id {
        assert gained[i] in gained;
      }
    }
  }

  /** The ids of some filings that are not among those left out. */
  function Logged(filings: seq<Filing>, unlogged: set<Id>): seq<Id> {
    if filings == [] then []
    else
      var before, f := Logged(filings[..|filings| - 1], unlogged), filings[|filings| - 1];
      if f.id.Some? && f.id.value !in unlogged then before + [f.id.value] else before
  }

  lemma LoggedSnoc(filings: seq<Filing>, f: Filing, unlogged: set<Id>)
    requires f.id.Some?
    ensures Logged(filings + [f], unlogged)
         == Logged(filings, unlogged) + (if f.id.value in unlogged then [] else [f.id.value])
  {
    assert (filings + [f])[..|filings|] == filings;
  }

  ghost predicate Logs(c: Poller, r: Poller, unlogged: set<Id>) {
    c.dispatched <= r.dispatched && r.replay == c.replay + Logged(r.dispatched[|c.dispatched|..], unlogged)
  }

  lemma OneLogs(c: Poller, b: Poller, cutoff: Option<int>, f: Filing, faults: Faults, max: int)
    requires Logs(c, b, faults.unlogged)
    ensures Logs(c, One(b, cutoff, f, faults, max), faults.unlogged)
  {
    var r, gained := One(b, cutoff, f, faults, max), b.dispatched[|c.dispatched|..];
    if r.dispatched != b.dispatched {
      assert r.dispatched[|c.dispatched|..] == gained + [f];
      LoggedSnoc(gained, f, faults.unlogged);
    }
  }

  /** The replay artefact gains, in order, what was dispatched and could be appended. */
  lemma {:induction false} PollLogs(c: Poller, cutoff: Option<int>, filings: seq<Filing>, faults: Faults, max: int)
    ensures Logs(c, Polled(c, cutoff, filings, faults, max), faults.unlogged)
  {
    if filings == [] {
      assert c.dispatched[|c.dispatched|..] == [];
    } else {
      var n := |filings| - 1;
      PollLogs(c, cutoff, filings[..n], faults, max);
      OneLogs(c, Polled(c, cutoff, filings[..n], faults, max), cutoff, filings[n], faults, max);
    }
  }

  ghost predicate Queues(c: Poller, r: Poller, max: int) {
    && c.dispatched <= r.dispatched
    && r.queue == DropOldest.OfferAll(c.queue, max, Logged(r.dispatched[|c.dispatched|..], {}))
  }

  /** Exactly what was dispatched is offered to the queue, in order, dropping the oldest. */
  lemma {:induction false} PollQueues(c: Poller, cutoff: Option<int>, filings: seq<Filing>, faults: Faults, max: int)
    ensures Queues(c, Polled(c, cutoff, filings, faults, max), max)
  {
    if filings == [] {
      assert c.dispatched[|c.dispatched|..] == [];
    } else {
      var n := |filings| - 1;
      PollQueues(c, cutoff, filings[..n], faults, max);
      OneQueues(c, Polled(c, cutoff, filings[..n], faults, max), cutoff, filings[n], faults, max);
    }
  }

  lemma OneQueues(c: Poller, b: Poller, cutoff: Option<int>, f: Filing, faults: Faults, max: int)
    requires Queues(c, b, max)
    ensures Queues(c, One(b, cutoff, f, faults, max), max)
  {
    var r, gained := One(b, cutoff, f, faults, max), b.dispatched[|c.dispatched|..];
    if r.dispatched != b.dispatched {
      assert r.dispatched[|c.dispatched|..] == gained + [f];
      LoggedSnoc(gained, f, {});
      DropOldest.OfferAllSnoc(c.queue, max, Logged(gained, {}), f.id.value);
    }
  }

  /** A poll that does not raise misses a filing only if its id was seen before or it is older than
      the watermark that the poll started with. */
  lemma {:induction false} PollMissesOnlyOld(c: Poller, cutoff: Option<int>,
      filings: seq<Filing>, faults: Faults, max: int, id: Id)
    requires !Polled(c, cutoff, filings, faults, max).down
    ensures id in Polled(c, cutoff, filings, faults, max).seen <==>
              id in c.seen || exists f <- filings :: f.id == Some(id) && !Skipped(cutoff, f)
    ensures !c.down
  {
    if filings != [] {
      var n := |filings| - 1;
      PollMissesOnlyOld(c, cutoff, filings[..n], faults, max, id);
      assert filings == filings[..n] + [filings[n]];
    }
  }

  // ---------------------------------------------------------------- a poll as a run of dispatches

  function Cycles(p: Producer, filings: seq<Filing>, faults: Faults): seq<Step>
    requires forall f <- filings :: f.id.Some?
  {
    if filings == [] then []
    else
      var last := filings[|filings| - 1];
      assert last in filings;
      Cycles(p, filings[..|filings| - 1], faults) + Cycle(p, last.id.value, last.id.value !in faults.unsaved)
  }

  function Records(p: Producer, filings: seq<Filing>): seq<Sent>
    requires forall f <- filings :: f.id.Some?
  {
    seq(|filings|, i requires 0 <= i < |filings| => assert filings[i] in filings; Sent(p, filings[i].id.value))
  }

  /** A poll is a run of the dispatch steps of one producer, so what holds for every run of those
      holds for every sequence of polls. */
  lemma {:induction false} PollIsRun(c: Poller, cutoff: Option<int>,
      filings: seq<Filing>, faults: Faults, max: int, s: State, p: Producer)
    requires p in s.workers && s.workers[p] == Worker(Idle, c.seen) && s.file == c.file
    requires Gained(c, Polled(c, cutoff, filings, faults, max))
    ensures Follows(c, Polled(c, cutoff, filings, faults, max), faults, s, p)
  {
    if filings == [] {
      assert c.dispatched[|c.dispatched|..] == [];
      assert s.workers[p := Worker(Idle, c.seen)] == s.workers;
    } else {
      var n := |filings| - 1;
      var b := Polled(c, cutoff, filings[..n], faults, max);
      PolledGains(c, cutoff, filings[..n], faults, max);
      PollIsRun(c, cutoff, filings[..n], faults, max, s, p);
      OneIsCycle(c, b, cutoff, filings[n], faults, max, s, p);
    }
  }

  ghost predicate Follows(c: Poller, r: Poller, faults: Faults, s: State, p: Producer)
    requires Gained(c, r)
  {
    var gained := r.dispatched[|c.dispatched|..];
    Run(s, Cycles(p, gained, faults))
      == State(s.workers[p := Worker(Idle, r.seen)], r.file, s.sent + Records(p, gained))
  }

  lemma OneIsCycle(c: Poller, b: Poller, cutoff: Option<int>,
      f: Filing, faults: Faults, max: int, s: State, p: Producer)
    requires p in s.workers && Gained(c, b) && Follows(c, b, faults, s, p)
    requires Gained(c, One(b, cutoff, f, faults, max))
    ensures Follows(c, One(b, cutoff, f, faults, max), faults, s, p)
  {
    var r := One(b, cutoff, f, faults, max);
    if r.dispatched != b.dispatched {
      var gained := b.dispatched[|c.dispatched|..];
      assert r.dispatched[|c.dispatched|..] == gained + [f];
      RunOneMore(gained, f, faults, b.seen, b.file, s, p);
    }
  }

  lemma {:induction false} RunOneMore(gained: seq<Filing>, f: Filing, faults: Faults, seen: set<Id>,
      file: Option<set<Id>>, s: State, p: Producer)
    requires p in s.workers && f.id.Some? && f.id.value !in seen && forall g <- gained :: g.id.Some?
    requires Run(s, Cycles(p, gained, faults))
          == State(s.workers[p := Worker(Idle, seen)], file, s.sent + Records(p, gained))
    ensures var known := seen + {f.id.value};
            Run(s, Cycles(p, gained + [f], faults))
              == State(s.workers[p := Worker(Idle, known)], if f.id.value in faults.unsaved then file else Some(known),
                       s.sent + Records(p, gained + [f]))
  {
    var t := Run(s, Cycles(p, gained, faults));
    var known := seen + {f.id.value};
    CyclesSnoc(p, gained, f, faults);
    RunJoin(s, Cycles(p, gained, faults), Cycle(p, f.id.value, f.id.value !in faults.unsaved));
    CycleSends(t, p, f.id.value, f.id.value !in faults.unsaved);
    assert t.workers[p := Worker(Idle, known)] == s.workers[p := Worker(Idle, known)];
    assert t.sent + [Sent(p, f.id.value)] == s.sent + Records(p, gained + [f]);
  }

  lemma {:induction false} CyclesSnoc(p: Producer, filings: seq<Filing>, f: Filing, faults: Faults)
    requires f.id.Some? && forall g <- filings :: g.id.Some?
    ensures Cycles(p, filings + [f], faults)
         == Cycles(p, filings, faults) + Cycle(p, f.id.value, f.id.value !in faults.unsaved)
    ensures Records(p, filings + [f]) == Records(p, filings) + [Sent(p, f.id.value)]
  {
    assert (filings + [f])[..|filings|] == filings;
  }

  // ---------------------------------------------------------------- whole histories

  /** The poller as the one producer of a directory. */
  ghost predicate Matches(c: Poller, s: State) {
    && (forall f <- c.dispatched :: f.id.Some?)
    && s == State(map[0 := if c.down then Worker(Down, {}) else Worker(Idle, c.seen)], c.file, Records(0, c.dispatched))
  }

  predicate Good(e: Event) {
    match e
    case Poll(_, faults) => faults.unsaved == {}
    case Started(readable) => readable
    case NewDay => false
  }

  lemma {:induction false} CyclesFaultFree(p: Producer, filings: seq<Filing>, faults: Faults)
    requires faults.unsaved == {} && forall f <- filings :: f.id.Some?
    ensures forall i | 0 <= i < |Cycles(p, filings, faults)| :: FaultFree(Cycles(p, filings, faults)[i])
  {
    if filings != [] {
      CyclesFaultFree(p, filings[..|filings| - 1], faults);
    }
  }

  lemma PollSteps(c: Poller, e: Event, max: int, s: State) returns (steps: seq<Step>)
    requires e.Poll? && !c.down && Matches(c, s)
    ensures Matches(Happens(c, e, max), Run(s, steps))
    ensures Good(e) ==> forall i | 0 <= i < |steps| :: FaultFree(steps[i])
  {
    var r := Polled(c, c.watermark, e.filings, e.faults, max);
    PolledGains(c, c.watermark, e.filings, e.faults, max);
    PollIsRun(c, c.watermark, e.filings, e.faults, max, s, 0);
    var gained := r.dispatched[|c.dispatched|..];
    assert r.dispatched == c.dispatched + gained;
    steps := Cycles(0, gained, e.faults);
    assert Run(s, steps).workers == map[0 := Worker(Idle, r.seen)];
    if e.faults.unsaved == {} {
      CyclesFaultFree(0, gained, e.faults);
    }
    if r.down {
      CrashAfter(s, steps, r.seen);
      steps := steps + [Crash(0)];
    }
  }

  /** An exception ends the thread. */
  lemma CrashAfter(s: State, steps: seq<Step>, seen: set<Id>)
    requires Run(s, steps).workers == map[0 := Worker(Idle, seen)]
    ensures Run(s, steps + [Crash(0)]) == Run(s, steps).(workers := map[0 := Worker(Down, {})])
  {
    RunJoin(s, steps, [Crash(0)]);
    assert [Crash(0)][1..] == [];
    assert Run(Run(s, steps), [Crash(0)]) == Apply(Run(s, steps), Crash(0));
    assert Apply(Run(s, steps), Crash(0)).workers == map[0 := Worker(Down, {})];
  }

  lemma EventSteps(c: Poller, e: Event, max: int, s: State) returns (steps: seq<Step>)
    requires Matches(c, s)
    ensures Matches(Happens(c, e, max), Run(s, steps))
    ensures Good(e) ==> forall i | 0 <= i < |steps| :: FaultFree(steps[i])
  {
    if e.Poll? && !c.down {
      steps := PollSteps(c, e, max, s);
    } else if e.Poll? || (e.Started? && !c.down) {
      steps := [];
    } else {
      var step := if e.NewDay? then Midnight else Start(0, e.readable);
      steps := [step];
      RunCons(s, step, []);
      assert [step] + [] == steps;
      var r := Happens(c, e, max);
      assert Apply(s, step).workers == map[0 := if r.down then Worker(Down, {}) else Worker(Idle, r.seen)];
    }
  }

  lemma {:induction false} HistorySteps(c: Poller, events: seq<Event>, max: int, s: State) returns (steps: seq<Step>)
    requires Matches(c, s)
    ensures Matches(History(c, events, max), Run(s, steps))
    ensures (forall i | 0 <= i < |events| :: Good(events[i])) ==> forall i | 0 <= i < |steps| :: FaultFree(steps[i])
    decreases |events|
  {
    if events == [] {
      steps := [];
    } else {
      var now := EventSteps(c, events[0], max, s);
      var later := HistorySteps(Happens(c, events[0], max), events[1..], max, Run(s, now));
      RunJoin(s, now, later);
      steps := now + later;
    }
  }

  /** Whatever is fetched in whichever polls, and wherever the thread dies of an exception and is
      started again: on one day, with writes and reads that succeed, no id is dispatched twice. */
  lemma DispatchedOnce(file: Option<set<Id>>, events: seq<Event>, max: int)
    requires forall i | 0 <= i < |events| :: Good(events[i])
    ensures var d := History(FRESH.(file := file), events, max).dispatched;
            forall i, j | 0 <= i < j < |d| :: d[i].id != d[j].id
  {
    var c, s := FRESH.(file := file), Init({0}, file);
    assert s.workers == map[0 := Worker(Down, {})];
    var steps := HistorySteps(c, events, max, s);
    AtMostOnce(0, file, steps);
    var d, sent := History(c, events, max).dispatched, Run(s, steps).sent;
    forall i, j | 0 <= i < j < |d| ensures d[i].id != d[j].id {
      assert d[i] in d && d[j] in d && sent[i].id != sent[j].id;
    }
  }

  // ---------------------------------------------------------------- the code

  /** Today's seen file, shared by the producers of a data directory. */
  class SeenFile {
    var ids: Option<set<Id>>

    constructor ()
      ensures ids == None
    {
      ids := None;
    }
  }

  class RawQueue {
    const max: int
    var items: seq<Id>

    constructor (max: int)
      ensures items == [] && this.max == max
    {
      this.max, items := max, [];
    }
  }

  class NSEPoller {
    const file: SeenFile
    const queue: RawQueue
    var seen: set<Id>
    var replay: seq<Id>
    var watermark: Option<int>
    var down: bool
    ghost var dispatched: seq<Filing>

    constructor (file: SeenFile, queue: RawQueue)
      ensures this.file == file && this.queue == queue
      ensures Now() == Poller({}, file.ids, [], None, queue.items, [], true)
    {
      this.file, this.queue := file, queue;
      seen, replay, watermark, down, dispatched := {}, [], None, true, [];
    }

    ghost function Now(): Poller
      reads this, file, queue
    {
      Poller(seen, file.ids, replay, watermark, queue.items, dispatched, down)
    }

    /** `mark_seen`: the id is kept in memory even when the write fails. */
    method MarkSeen(id: Id, writable: bool) returns (added: bool)
      modifies this`seen, file
      ensures added == (id !in old(seen)) && seen == old(seen) + {id}
      ensures file.ids == if added && writable then Some(seen) else old(file.ids)
    {
      if id in seen {
        return false;
      }
      seen := seen + {id};
      if writable {
        file.ids := Some(seen);
      }
      return true;
    }

    /** `_dispatch`: mark, append the replay artefact, enqueue. */
    method Dispatch(id: Id, writable: bool, loggable: bool) returns (added: bool)
      modifies this`seen, this`replay, file, queue
      ensures added == (id !in old(seen)) && seen == old(seen) + {id}
      ensures file.ids == if added && writable then Some(seen) else old(file.ids)
      ensures replay == if added && loggable then old(replay) + [id] else old(replay)
      ensures queue.items == if added then DropOldest.Offer(old(queue.items), queue.max, id) else old(queue.items)
    {
      added := MarkSeen(id, writable);
      if added {
        if loggable {
          replay := replay + [id];
        }
        if DropOldest.Full(queue.items, queue.max) {
          queue.items := queue.items[1..];
        }
        queue.items := queue.items + [id];
      }
    }

    /** The thread starts, or starts again after it ended. */
    method StartThread(readable: bool)
      modifies this`seen, this`down
      ensures Now() == Happens(old(Now()), Event.Started(readable), queue.max)
    {
      if down {
        seen := Loaded(file.ids, readable);
        down := false;
      }
    }

    /** `_poll_once`. The cutoff is the watermark at the start, not the one being raised. */
    method PollOnce(filings: seq<Filing>, faults: Faults)
      requires !down
      modifies this, file, queue
      ensures Now() == Happens(old(Now()), Poll(filings, faults), queue.max)
      ensures Gained(old(Now()), Now())
    {
      ghost var start := Now();
      var cutoff := watermark;
      var i := 0;
      while i < |filings| && !down
        invariant 0 <= i <= |filings|
        invariant Now() == Polled(start, cutoff, filings[..i], faults, queue.max)
      {
        var f := filings[i];
        assert filings[..i + 1][..i] == filings[..i];
        if !Skipped(cutoff, f) {
          HandleOne(f, cutoff, faults);
        }
        i := i + 1;
      }
      DownStays(start, cutoff, filings, i, faults, queue.max);
      PolledGains(start, cutoff, filings, faults, queue.max);
    }

    /** The body of the loop for a filing that is not skipped. */
    method HandleOne(f: Filing, ghost cutoff: Option<int>, faults: Faults)
      requires !down && !Skipped(cutoff, f)
      modifies this, file, queue
      ensures Now() == One(old(Now()), cutoff, f, faults, queue.max)
    {
      if f.id.None? {
        down := true;
        return;
      }
      var added := Dispatch(f.id.value, f.id.value !in faults.unsaved, f.id.value !in faults.unlogged);
      if added {
        dispatched := dispatched + [f];
        if watermark.None? || f.filedAt > watermark.value {
          watermark := Some(f.filedAt - SLACK);
        }
      } else {
        assert seen == old(seen);
      }
    }
  }

  /** After the exception the rest of the fetch changes nothing. */
  lemma {:induction false} DownStays(c: Poller, cutoff: Option<int>,
      filings: seq<Filing>, i: nat, faults: Faults, max: int)
    requires i <= |filings| && (i == |filings| || Polled(c, cutoff, filings[..i], faults, max).down)
    ensures Polled(c, cutoff, filings, faults, max) == Polled(c, cutoff, filings[..i], faults, max)
    decreases |filings|
  {
    if i == |filings| {
      assert filings[..i] == filings;
    } else {
      var n := |filings| - 1;
      assert filings[..n][..i] == filings[..i];
      DownStays(c, cutoff, filings[..n], i, faults, max);
    }
  }
}
