/**
 The persistent seen-set of src/event_intelligence/dedupe.py and the producers that use it: each
 has its own set in memory, loaded from today's file when it starts, and all write to the one file
 of their data directory.

 A dispatch is three steps, with a crash possible between any two of them. Persisting replaces the
 file in one step; it can fail, and then the producer goes on. A step that is not enabled leaves
 the state alone, so a run is any sequence of steps.
 */
module SeenSet {
  import opened Containers

  type Producer = nat

  datatype Id = Id(n: nat)

  /** `Marked`: in the set in memory. `Saved`: the write of the file was attempted. */
  datatype Stage = Down | Idle | Marked(id: Id) | Saved(id: Id)

  datatype Worker = Worker(stage: Stage, seen: set<Id>)

  datatype Sent = Sent(producer: Producer, id: Id)

  /** `file` is today's file; a new day starts without one. */
  datatype State = State(workers: map<Producer, Worker>, file: Option<set<Id>>, sent: seq<Sent>)

  datatype Step = Start(p: Producer, readable: bool)
                | Mark(p: Producer, id: Id)
                | Persist(p: Producer, ok: bool)
                | Enqueue(p: Producer)
                | Crash(p: Producer)
                | Midnight

  function Contents(file: Option<set<Id>>): set<Id> {
    if file.Some? then file.value else {}
  }

  /** `load_seen_set`: a file that cannot be read counts as empty. */
  function Loaded(file: Option<set<Id>>, readable: bool): set<Id> {
    if readable then Contents(file) else {}
  }

  function Init(producers: set<Producer>, file: Option<set<Id>>): State {
    State(map p | p in producers :: Worker(Down, {}), file, [])
  }

  function Put(s: State, p: Producer, stage: Stage, seen: set<Id>): State {
    s.(workers := s.workers[p := Worker(stage, seen)])
  }

  function Apply(s: State, step: Step): (r: State)
    ensures r.workers.Keys == s.workers.Keys
  {
    if step.Midnight? then s.(file := None)
    else if step.p !in s.workers then s
    else
      var p, w := step.p, s.workers[step.p];
      match step
      case Start(_, readable) => if w.stage.Down? then Put(s, p, Idle, Loaded(s.file, readable)) else s
      case Mark(_, id) => if w.stage.Idle? && id !in w.seen then Put(s, p, Marked(id), w.seen + {id}) else s
      case Persist(_, ok) =>
        if !w.stage.Marked? then s
        else Put(s.(file := if ok then Some(w.seen) else s.file), p, Saved(w.stage.id), w.seen)
      case Enqueue(_) =>
        if !w.stage.Saved? then s
        else Put(s.(sent := s.sent + [Sent(p, w.stage.id)]), p, Idle, w.seen)
      case Crash(_) => Put(s, p, Down, {})
  }

  function Run(s: State, steps: seq<Step>): (r: State)
    ensures r.workers.Keys == s.workers.Keys
    decreases |steps|
  {
    if steps == [] then s else Run(Apply(s, steps[0]), steps[1..])
  }

  lemma {:induction false} RunJoin(s: State, a: seq<Step>, b: seq<Step>)
    ensures Run(s, a + b) == Run(Run(s, a), b)
    decreases |a|
  {
    if a == [] {
      assert a + b == b;
    } else {
      assert (a + b)[1..] == a[1..] + b;
      RunJoin(Apply(s, a[0]), a[1..], b);
    }
  }

  lemma RunCons(s: State, step: Step, rest: seq<Step>)
    ensures Run(s, [step] + rest) == Run(Apply(s, step), rest)
  {
    assert ([step] + rest)[1..] == rest;
  }

  ghost function Ids(sent: seq<Sent>): set<Id> {
    set x <- sent :: x.id
  }

  ghost predicate Once(sent: seq<Sent>) {
    forall i, j | 0 <= i < j < |sent| :: sent[i].id != sent[j].id
  }

  lemma IdsSnoc(sent: seq<Sent>, x: Sent)
    ensures Ids(sent + [x]) == Ids(sent) + {x.id}
  {
    var t := sent + [x];
    forall id | id in Ids(sent) + {x.id} ensures id in Ids(t) {
      if id == x.id {
        assert t[|sent|] == x && x in t;
      } else {
        var y :| y in sent && y.id == id;
        assert y in t;
      }
    }
  }

  lemma OnceSnoc(sent: seq<Sent>, x: Sent)
    requires Once(sent) && x.id !in Ids(sent)
    ensures Once(sent + [x])
  {
    forall i | 0 <= i < |sent| ensures sent[i].id != x.id {
      assert sent[i] in sent;
    }
  }

  // ---------------------------------------------------------------- one producer

  ghost predicate Alone(s: State, p: Producer) {
    s.workers.Keys == {p}
  }

  /** What is in memory covers what was sent, and the id on its way is not sent yet. */
  ghost predicate Covered(s: State, p: Producer) {
    && Alone(s, p)
    && Once(s.sent)
    && var w := s.workers[p];
       && (!w.stage.Down? ==> Ids(s.sent) <= w.seen)
       && (w.stage.Marked? || w.stage.Saved? ==> w.stage.id in w.seen && w.stage.id !in Ids(s.sent))
  }

  /** A restart finds everything that was sent in the file. */
  ghost predicate StartLoadsAll(s: State, step: Step) {
    step.Start? && step.p in s.workers && s.workers[step.p].stage.Down? ==>
      Ids(s.sent) <= Loaded(s.file, step.readable)
  }

  ghost predicate StartsLoadAll(s: State, steps: seq<Step>)
    decreases |steps|
  {
    steps == [] || (StartLoadsAll(s, steps[0]) && StartsLoadAll(Apply(s, steps[0]), steps[1..]))
  }

  lemma ApplyKeepsCovered(s: State, p: Producer, step: Step)
    requires Covered(s, p) && StartLoadsAll(s, step)
    ensures Covered(Apply(s, step), p)
  {
    if step.Enqueue? && step.p == p && s.workers[p].stage.Saved? {
      var x := Sent(p, s.workers[p].stage.id);
      IdsSnoc(s.sent, x);
      OnceSnoc(s.sent, x);
    }
  }

  lemma {:induction false} RunKeepsCovered(s: State, p: Producer, steps: seq<Step>)
    requires Covered(s, p) && StartsLoadAll(s, steps)
    ensures Covered(Run(s, steps), p)
    decreases |steps|
  {
    if steps != [] {
      ApplyKeepsCovered(s, p, steps[0]);
      RunKeepsCovered(Apply(s, steps[0]), p, steps[1..]);
    }
  }

  /** With any failed writes, crashes and new days, nothing is sent twice as long as every restart
      finds in the file what was sent before. */
  lemma OnceIfStartsLoadAll(p: Producer, file: Option<set<Id>>, steps: seq<Step>)
    requires StartsLoadAll(Init({p}, file), steps)
    ensures Once(Run(Init({p}, file), steps).sent)
  {
    RunKeepsCovered(Init({p}, file), p, steps);
  }

  predicate FaultFree(step: Step) {
    !step.Midnight? && (step.Start? ==> step.readable) && (step.Persist? ==> step.ok)
  }

  /** The file covers what was sent, and memory covers the file. */
  ghost predicate FileCovers(s: State, p: Producer) {
    && Alone(s, p)
    && Ids(s.sent) <= Contents(s.file)
    && var w := s.workers[p];
       && (!w.stage.Down? ==> Contents(s.file) <= w.seen)
       && (w.stage.Saved? ==> w.stage.id in Contents(s.file))
       && (w.stage.Marked? ==> w.stage.id in w.seen)
  }

  lemma {:induction false} FaultFreeStartsLoadAll(s: State, p: Producer, steps: seq<Step>)
    requires FileCovers(s, p) && forall i | 0 <= i < |steps| :: FaultFree(steps[i])
    ensures StartsLoadAll(s, steps)
    decreases |steps|
  {
    if steps != [] {
      var r, step := Apply(s, steps[0]), steps[0];
      if step.Enqueue? && step.p == p && s.workers[p].stage.Saved? {
        IdsSnoc(s.sent, Sent(p, s.workers[p].stage.id));
      }
      assert FileCovers(r, p);
      FaultFreeStartsLoadAll(r, p, steps[1..]);
    }
  }

  /** One producer, one day, writes and reads that succeed: no id is sent twice, whatever is
      polled and wherever it crashes and restarts. */
  lemma AtMostOnce(p: Producer, file: Option<set<Id>>, steps: seq<Step>)
    requires forall i | 0 <= i < |steps| :: FaultFree(steps[i])
    ensures Once(Run(Init({p}, file), steps).sent)
  {
    FaultFreeStartsLoadAll(Init({p}, file), p, steps);
    OnceIfStartsLoadAll(p, file, steps);
  }

  // ---------------------------------------------------------------- when an id can be sent again

  function Cycle(p: Producer, id: Id, ok: bool): seq<Step> {
    [Mark(p, id)] + ([Persist(p, ok)] + [Enqueue(p)])
  }

  /** One complete dispatch of a new id. */
  lemma CycleSends(s: State, p: Producer, id: Id, ok: bool)
    requires p in s.workers && s.workers[p].stage.Idle? && id !in s.workers[p].seen
    ensures var seen := s.workers[p].seen + {id};
            Run(s, Cycle(p, id, ok)) ==
            State(s.workers[p := Worker(Idle, seen)], if ok then Some(seen) else s.file, s.sent + [Sent(p, id)])
  {
    var seen := s.workers[p].seen + {id};
    var a := Apply(s, Mark(p, id));
    var b := Apply(a, Persist(p, ok));
    var c := Apply(b, Enqueue(p));
    RunCons(s, Mark(p, id), [Persist(p, ok)] + [Enqueue(p)]);
    RunCons(a, Persist(p, ok), [Enqueue(p)]);
    assert [Enqueue(p)][1..] == [];
    assert c.workers == s.workers[p := Worker(Idle, seen)];
  }

  /** A dispatch whose write succeeds makes up for every write that failed before: the file then has
      all that was ever sent, so the next restart loads it. */
  lemma NextSaveHeals(p: Producer, file: Option<set<Id>>, steps: seq<Step>, id: Id)
    requires StartsLoadAll(Init({p}, file), steps)
    requires var w := Run(Init({p}, file), steps).workers[p]; w.stage.Idle? && id !in w.seen
    ensures var r := Run(Run(Init({p}, file), steps), Cycle(p, id, true));
            Once(r.sent) && Ids(r.sent) <= Loaded(r.file, true)
  {
    var s := Run(Init({p}, file), steps);
    RunKeepsCovered(Init({p}, file), p, steps);
    CycleSends(s, p, id, true);
    IdsSnoc(s.sent, Sent(p, id));
    OnceSnoc(s.sent, Sent(p, id));
  }

  predicate NoStart(steps: seq<Step>, p: Producer) {
    forall i | 0 <= i < |steps| :: !(steps[i].Start? && steps[i].p == p)
  }

  ghost predicate Sends(s: State, steps: seq<Step>, p: Producer, id: Id) {
    var r := Run(s, steps);
    exists i :: |s.sent| <= i < |r.sent| && r.sent[i] == Sent(p, id)
  }

  ghost predicate CanSend(s: State, p: Producer, id: Id) {
    exists steps :: NoStart(steps, p) && Sends(s, steps, p, id)
  }

  ghost predicate Blocked(s: State, p: Producer, id: Id) {
    && p in s.workers
    && var w := s.workers[p];
       w.stage.Down? || (id in w.seen && w.stage != Marked(id) && w.stage != Saved(id))
  }

  lemma {:induction false} BlockedNeverSends(s: State, steps: seq<Step>, p: Producer, id: Id)
    requires Blocked(s, p, id) && NoStart(steps, p)
    ensures s.sent <= Run(s, steps).sent && !Sends(s, steps, p, id)
    decreases |steps|
  {
    if steps != [] {
      var r := Apply(s, steps[0]);
      assert Blocked(r, p, id);
      assert r.sent == s.sent || (|r.sent| == |s.sent| + 1 && s.sent <= r.sent && r.sent[|s.sent|] != Sent(p, id));
      assert NoStart(steps[1..], p);
      BlockedNeverSends(r, steps[1..], p, id);
      forall i | |s.sent| <= i < |Run(s, steps).sent| ensures Run(s, steps).sent[i] != Sent(p, id) {
        if i < |r.sent| {
          assert Run(s, steps).sent[i] == r.sent[i];
        }
      }
    }
  }

  /** An idle producer that is not restarted can still send an id exactly when the id is not in its
      own set, whatever the other producers do and whatever the file holds. */
  lemma CanSendIff(s: State, p: Producer, id: Id)
    requires p in s.workers && s.workers[p].stage.Idle?
    ensures CanSend(s, p, id) <==> id !in s.workers[p].seen
  {
    if id in s.workers[p].seen {
      forall steps | NoStart(steps, p) ensures !Sends(s, steps, p, id) {
        BlockedNeverSends(s, steps, p, id);
      }
    } else {
      CycleSends(s, p, id, true);
      assert Run(s, Cycle(p, id, true)).sent[|s.sent|] == Sent(p, id);
      assert Sends(s, Cycle(p, id, true), p, id);
    }
  }

  /** So a restart is safe exactly when it loads all that was sent. */
  lemma RestartSafeIff(s: State, p: Producer, readable: bool)
    requires p in s.workers && s.workers[p].stage.Down?
    ensures (forall id <- Ids(s.sent) :: !CanSend(Apply(s, Start(p, readable)), p, id))
       <==> Ids(s.sent) <= Loaded(s.file, readable)
  {
    var r := Apply(s, Start(p, readable));
    forall id ensures CanSend(r, p, id) <==> id !in Loaded(s.file, readable) {
      CanSendIff(r, p, id);
    }
  }

  // ---------------------------------------------------------------- ids that are never sent

  /** What a restart loads without its having been sent is lost: exactly those ids are neither sent
      nor can be sent by this producer until it starts again. */
  lemma LostIff(s: State, p: Producer, readable: bool, id: Id)
    requires p in s.workers && s.workers[p].stage.Down?
    ensures id !in Ids(s.sent) && !CanSend(Apply(s, Start(p, readable)), p, id)
       <==> id in Loaded(s.file, readable) - Ids(s.sent)
  {
    CanSendIff(Apply(s, Start(p, readable)), p, id);
  }

  /** With one producer and no faults, an id that is in the file and not on its way is sent no more
      that day, through any crashes and restarts. */
  lemma {:induction false} SavedIsSettled(s: State, p: Producer, steps: seq<Step>, id: Id)
    requires FileCovers(s, p) && id in Contents(s.file)
    requires s.workers[p].stage != Marked(id) && s.workers[p].stage != Saved(id)
    requires forall i | 0 <= i < |steps| :: FaultFree(steps[i])
    ensures id in Ids(Run(s, steps).sent) <==> id in Ids(s.sent)
    decreases |steps|
  {
    if steps != [] {
      var r, step := Apply(s, steps[0]), steps[0];
      if step.Enqueue? && step.p == p && s.workers[p].stage.Saved? {
        IdsSnoc(s.sent, Sent(p, s.workers[p].stage.id));
      }
      assert FileCovers(r, p);
      SavedIsSettled(r, p, steps[1..], id);
    }
  }

  /** So a crash between the write and the enqueue loses the filing for the day. */
  lemma CrashAfterWriteLoses(s: State, p: Producer, steps: seq<Step>, id: Id)
    requires FileCovers(s, p) && s.workers[p].stage == Saved(id) && id !in Ids(s.sent)
    requires forall i | 0 <= i < |steps| :: FaultFree(steps[i])
    ensures id !in Ids(Run(Apply(s, Crash(p)), steps).sent)
  {
    SavedIsSettled(Apply(s, Crash(p)), p, steps, id);
  }

  /** And there is such a run. */
  lemma WrittenNotSent(p: Producer, id: Id)
    ensures var s := Run(Init({p}, None), [Start(p, true)] + ([Mark(p, id)] + [Persist(p, true)]));
            FileCovers(s, p) && s.workers[p].stage == Saved(id) && s.sent == []
  {
    var s1 := Apply(Init({p}, None), Start(p, true));
    var s2 := Apply(s1, Mark(p, id));
    RunCons(Init({p}, None), Start(p, true), [Mark(p, id)] + [Persist(p, true)]);
    RunCons(s1, Mark(p, id), [Persist(p, true)]);
    RunCons(s2, Persist(p, true), []);
    assert [Persist(p, true)] + [] == [Persist(p, true)];
  }

  // ---------------------------------------------------------------- runs that send twice

  const FIRST := Id(0)

  const SECOND := Id(1)

  function Started(producers: set<Producer>): State {
    State(map p | p in producers :: Worker(Idle, {}), None, [])
  }

  /** A dispatch by a producer that does not know the id, and what comes after. */
  lemma SendThen(s: State, p: Producer, id: Id, ok: bool, rest: seq<Step>)
    requires p in s.workers && s.workers[p].stage.Idle? && id !in s.workers[p].seen
    ensures Run(s, Cycle(p, id, ok) + rest) == Run(Run(s, Cycle(p, id, ok)), rest)
    ensures var seen := s.workers[p].seen + {id};
            Run(s, Cycle(p, id, ok)) ==
            State(s.workers[p := Worker(Idle, seen)], if ok then Some(seen) else s.file, s.sent + [Sent(p, id)])
  {
    RunJoin(s, Cycle(p, id, ok), rest);
    CycleSends(s, p, id, ok);
  }

  function Restart(p: Producer): seq<Step> {
    [Crash(p)] + [Start(p, true)]
  }

  lemma RestartIsStart(s: State, p: Producer)
    requires p in s.workers
    ensures Run(s, Restart(p)) == Put(s, p, Idle, Contents(s.file))
  {
    var down := Apply(s, Crash(p));
    var up := Apply(down, Start(p, true));
    RunCons(s, Crash(p), [Start(p, true)]);
    assert [Start(p, true)][1..] == [];
    assert Run(down, [Start(p, true)]) == up;
    assert up.workers == s.workers[p := Worker(Idle, Contents(s.file))];
  }

  lemma RestartLoads(s: State, p: Producer, rest: seq<Step>)
    requires p in s.workers
    ensures Run(s, Restart(p) + rest) == Run(Put(s, p, Idle, Contents(s.file)), rest)
  {
    RunJoin(s, Restart(p), rest);
    RestartIsStart(s, p);
  }

  /** A write that fails, and a crash before the next one. */
  lemma FailedWriteSendsTwice()
    ensures Run(Started({0}), Cycle(0, FIRST, false) + (Restart(0) + Cycle(0, FIRST, true))).sent
         == [Sent(0, FIRST), Sent(0, FIRST)]
  {
    var s := Started({0});
    SendThen(s, 0, FIRST, false, Restart(0) + Cycle(0, FIRST, true));
    var t := Run(s, Cycle(0, FIRST, false));
    RestartLoads(t, 0, Cycle(0, FIRST, true));
    CycleSends(Put(t, 0, Idle, Contents(t.file)), 0, FIRST, true);
  }

  /** A restart after midnight, before anything new is saved. */
  lemma RestartAfterMidnightSendsTwice()
    ensures Run(Started({0}), Cycle(0, FIRST, true) + ([Midnight] + (Restart(0) + Cycle(0, FIRST, true)))).sent
         == [Sent(0, FIRST), Sent(0, FIRST)]
  {
    var s := Started({0});
    SendThen(s, 0, FIRST, true, [Midnight] + (Restart(0) + Cycle(0, FIRST, true)));
    var t := Run(s, Cycle(0, FIRST, true));
    RunCons(t, Midnight, Restart(0) + Cycle(0, FIRST, true));
    RestartLoads(Apply(t, Midnight), 0, Cycle(0, FIRST, true));
    CycleSends(Put(Apply(t, Midnight), 0, Idle, Contents(None)), 0, FIRST, true);
  }

  /** Two producers on one directory do not collapse duplicates: neither consults the other's set.
      No fault and no crash is needed. */
  lemma TwoProducersSendTwice()
    ensures Run(Started({0, 1}), Cycle(0, FIRST, true) + Cycle(1, FIRST, true)).sent
         == [Sent(0, FIRST), Sent(1, FIRST)]
  {
    var s := Started({0, 1});
    SendThen(s, 0, FIRST, true, Cycle(1, FIRST, true));
    CycleSends(Run(s, Cycle(0, FIRST, true)), 1, FIRST, true);
  }

  /** The file holds only what the last of the two knew. */
  lemma LastWriterWins()
    ensures var u := Run(Started({0, 1}), Cycle(0, FIRST, true) + Cycle(1, SECOND, true));
            u.file == Some({SECOND}) && u.sent == [Sent(0, FIRST), Sent(1, SECOND)]
  {
    var s := Started({0, 1});
    SendThen(s, 0, FIRST, true, Cycle(1, SECOND, true));
    CycleSends(Run(s, Cycle(0, FIRST, true)), 1, SECOND, true);
    assert s.workers[1].seen + {SECOND} == {SECOND};
  }

  /** So each overwrites what the other saved, and after a restart a producer can send again even
      what it sent itself, although every write succeeded. */
  lemma SharedFileForgets()
    ensures Run(Started({0, 1}),
                (Cycle(0, FIRST, true) + Cycle(1, SECOND, true)) + (Restart(0) + Cycle(0, FIRST, true))).sent
         == [Sent(0, FIRST), Sent(1, SECOND), Sent(0, FIRST)]
  {
    var s, both := Started({0, 1}), Cycle(0, FIRST, true) + Cycle(1, SECOND, true);
    LastWriterWins();
    RunJoin(s, both, Restart(0) + Cycle(0, FIRST, true));
    var u := Run(s, both);
    RestartLoads(u, 0, Cycle(0, FIRST, true));
    CycleSends(Put(u, 0, Idle, {SECOND}), 0, FIRST, true);
  }
}
