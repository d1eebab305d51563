/**
 The asynchronous database writer of src/db/db_writer.py as interleaved steps: submitters, the
 stop sentinel, and the one worker thread with its retries.

 A step that is not enabled leaves the state alone, so a run is any sequence of steps.
 */
module DbWriter {

  datatype Record = Record(id: nat)

  datatype Item = Task(record: Record) | StopSentinel

  /** The worker: waiting for an item, about to make its n-th attempt at a record, past its
      attempts and about to call `task_done`, about to call it for the sentinel, or gone. */
  datatype Worker =
    | Polling
    | Attempting(record: Record, attempt: nat)
    | Concluding(record: Record, success: bool, attempts: nat)
    | Stopping
    | Exited

  /** How a record was dealt with: written, or logged as a permanent failure. */
  datatype Outcome = Outcome(record: Record, success: bool, attempts: nat)

  datatype State = State(
    queue: seq<Item>,
    worker: Worker,
    unfinished: int,          // the queue's count of unfinished tasks, which `join` waits on
    submitted: seq<Record>,
    printed: seq<Record>,     // submitted to a full queue, printed instead
    accepted: seq<Record>,
    outcomes: seq<Outcome>,   // in the order of processing
    rows: seq<Record>)        // rows committed to the database, in order

  const MAX_SIZE := 500
  const RETRIES := 3

  /** `Attempt(committed, raised)`: whether the insert committed, and whether it raised. */
  datatype Step =
    | Submit(record: Record)
    | PutStop
    | Get
    | Attempt(committed: bool, raised: bool)
    | TaskDone

  function Init(): State {
    State([], Polling, 0, [], [], [], [], [])
  }

  function Put(s: State, item: Item): State {
    s.(queue := s.queue + [item], unfinished := s.unfinished + 1)
  }

  function Apply(s: State, step: Step): State {
    match step
    case Submit(r) =>
      var s1 := s.(submitted := s.submitted + [r]);
      if |s.queue| < MAX_SIZE then Put(s1, Task(r)).(accepted := s.accepted + [r])
      else s1.(printed := s.printed + [r])
    case PutStop => if |s.queue| < MAX_SIZE then Put(s, StopSentinel) else s
    case Get =>
      if !s.worker.Polling? || s.queue == [] then s
      else s.(queue := s.queue[1..],
              worker := if s.queue[0].StopSentinel? then Stopping else Attempting(s.queue[0].record, 1))
    case Attempt(committed, raised) =>
      if !s.worker.Attempting? || !(committed || raised) then s
      else
        var r, n := s.worker.record, s.worker.attempt;
        s.(rows := if committed then s.rows + [r] else s.rows,
           worker := if !raised then Concluding(r, true, n)
                     else if n < RETRIES then Attempting(r, n + 1)
                     else Concluding(r, false, n))
    case TaskDone =>
      if s.worker.Concluding? then
        s.(outcomes := s.outcomes + [Outcome(s.worker.record, s.worker.success, s.worker.attempts)],
           worker := Polling, unfinished := s.unfinished - 1)
      else if s.worker.Stopping? then s.(worker := Exited, unfinished := s.unfinished - 1)
      else s
  }

  function Run(s: State, steps: seq<Step>): State
    decreases |steps|
  {
    if steps == [] then s else Run(Apply(s, steps[0]), steps[1..])
  }

  // ---------------------------------------------------------------- conservation

  function Processed(outcomes: seq<Outcome>): seq<Record> {
    seq(|outcomes|, i requires 0 <= i < |outcomes| => outcomes[i].record)
  }

  function InFlight(w: Worker): seq<Record> {
    if w.Attempting? || w.Concluding? then [w.record] else []
  }

  function Tasks(queue: seq<Item>): seq<Record> {
    if queue == [] then []
    else (if queue[0].Task? then [queue[0].record] else []) + Tasks(queue[1..])
  }

  lemma {:induction false} TasksSnoc(queue: seq<Item>, item: Item)
    ensures Tasks(queue + [item]) == Tasks(queue) + (if item.Task? then [item.record] else [])
  {
    if queue == [] {
      assert queue + [item] == [item];
      assert [item][1..] == [];
    } else {
      TasksSnoc(queue[1..], item);
      assert (queue + [item])[0] == queue[0] && (queue + [item])[1..] == queue[1..] + [item];
    }
  }

  ghost predicate OutcomeOk(o: Outcome) {
    1 <= o.attempts <= RETRIES && (!o.success ==> o.attempts == RETRIES)
  }

  ghost predicate WorkerOk(w: Worker) {
    && (w.Attempting? ==> 1 <= w.attempt <= RETRIES)
    && (w.Concluding? ==> OutcomeOk(Outcome(w.record, w.success, w.attempts)))
  }

  /** What was accepted is processed, in flight or queued, in that order. */
  ghost predicate InOrder(s: State) {
    s.accepted == Processed(s.outcomes) + (InFlight(s.worker) + Tasks(s.queue))
  }

  ghost predicate Balanced(s: State) {
    multiset(s.submitted) == multiset(s.printed) + multiset(s.accepted)
  }

  ghost predicate Inv(s: State) {
    InOrder(s) && Balanced(s) && Counted(s)
  }

  lemma ApplyKeepsInv(s: State, step: Step)
    requires Inv(s)
    ensures Inv(Apply(s, step))
  {
    ApplyKeepsOrder(s, step);
    ApplyKeepsBalance(s, step);
    ApplyKeepsCounts(s, step);
  }

  lemma PutKeepsOrder(s: State, step: Step)
    requires InOrder(s) && (step.Submit? || step.PutStop?)
    ensures InOrder(Apply(s, step))
  {
    var r := Apply(s, step);
    if |r.queue| > |s.queue| {
      TasksSnoc(s.queue, r.queue[|s.queue|]);
    }
  }

  lemma GetKeepsOrder(s: State)
    requires InOrder(s)
    ensures InOrder(Apply(s, Get))
  {
    if s.worker.Polling? && s.queue != [] {
      assert InFlight(s.worker) + Tasks(s.queue)
          == InFlight(Apply(s, Get).worker) + Tasks(s.queue[1..]);
    }
  }

  lemma DoneKeepsOrder(s: State)
    requires InOrder(s)
    ensures InOrder(Apply(s, TaskDone))
  {
    var r := Apply(s, TaskDone);
    if s.worker.Concluding? {
      assert Processed(r.outcomes) == Processed(s.outcomes) + [s.worker.record];
      assert Processed(r.outcomes) + ([] + Tasks(s.queue))
          == Processed(s.outcomes) + ([s.worker.record] + Tasks(s.queue));
    }
  }

  lemma ApplyKeepsOrder(s: State, step: Step)
    requires InOrder(s)
    ensures InOrder(Apply(s, step))
  {
    match step
    case Submit(_) => PutKeepsOrder(s, step);
    case PutStop => PutKeepsOrder(s, step);
    case Get => GetKeepsOrder(s);
    case Attempt(_, _) => assert InFlight(Apply(s, step).worker) == InFlight(s.worker);
    case TaskDone => DoneKeepsOrder(s);
  }

  lemma ApplyKeepsBalance(s: State, step: Step)
    requires Balanced(s)
    ensures Balanced(Apply(s, step))
  {
  }

  ghost predicate Counted(s: State) {
    && |s.queue| <= MAX_SIZE
    && s.unfinished == |s.queue| + (if s.worker.Polling? || s.worker.Exited? then 0 else 1)
    && WorkerOk(s.worker)
    && (forall i | 0 <= i < |s.outcomes| :: OutcomeOk(s.outcomes[i]))
  }

  lemma ApplyKeepsCounts(s: State, step: Step)
    requires Counted(s)
    ensures Counted(Apply(s, step))
  {
  }

  lemma {:induction false} RunKeepsInv(s: State, steps: seq<Step>)
    requires Inv(s)
    ensures Inv(Run(s, steps))
    decreases |steps|
  {
    if steps != [] {
      ApplyKeepsInv(s, steps[0]);
      RunKeepsInv(Apply(s, steps[0]), steps[1..]);
    }
  }

  /** Under every interleaving: what was accepted is, in order, what was processed, what is in
      flight and what is queued; what was submitted is what was printed and what was accepted;
      every record processed took at most three attempts, and all three if it failed. */
  lemma EveryInterleaving(steps: seq<Step>, i: nat)
    ensures var s := Run(Init(), steps);
            && s.accepted == Processed(s.outcomes) + (InFlight(s.worker) + Tasks(s.queue))
            && multiset(s.submitted) == multiset(s.printed) + multiset(s.accepted)
            && |s.queue| <= 500
            && (i < |s.outcomes| ==> 1 <= s.outcomes[i].attempts <= 3
                                     && (!s.outcomes[i].success ==> s.outcomes[i].attempts == 3))
  {
    RunKeepsInv(Init(), steps);
    var s := Run(Init(), steps);
    if i < |s.outcomes| {
      assert OutcomeOk(s.outcomes[i]);
    }
  }

  /** `join` returns exactly when nothing is queued or in the worker's hands; everything accepted
      has then been written or logged as a permanent failure, in order of acceptance. */
  lemma JoinMeansDone(steps: seq<Step>)
    ensures var s := Run(Init(), steps);
            && s.unfinished >= 0
            && (s.unfinished == 0 <==> s.queue == [] && (s.worker.Polling? || s.worker.Exited?))
            && (s.unfinished == 0 ==> s.accepted == Processed(s.outcomes))
  {
    RunKeepsInv(Init(), steps);
  }

  // ---------------------------------------------------------------- rows

  function Written(outcomes: seq<Outcome>): seq<Record> {
    if outcomes == [] then []
    else
      var last := outcomes[|outcomes| - 1];
      Written(outcomes[..|outcomes| - 1]) + (if last.success then [last.record] else [])
  }

  ghost predicate RowsFit(s: State) {
    s.rows == Written(s.outcomes) + (if s.worker.Concluding? && s.worker.success then [s.worker.record] else [])
  }

  /** An attempt that commits and then raises is made here. */
  predicate Doubles(s: State, step: Step) {
    s.worker.Attempting? && step == Attempt(true, true)
  }

  /** How often that happens along a run. */
  function Doubled(s: State, steps: seq<Step>): nat
    decreases |steps|
  {
    if steps == [] then 0
    else (if Doubles(s, steps[0]) then 1 else 0) + Doubled(Apply(s, steps[0]), steps[1..])
  }

  /** Every attempt that is made either commits or raises, not both. */
  ghost predicate Clean(s: State, steps: seq<Step>)
    decreases |steps|
  {
    steps == [] || (!Doubles(s, steps[0]) && Clean(Apply(s, steps[0]), steps[1..]))
  }

  lemma {:induction false} CleanIff(s: State, steps: seq<Step>)
    ensures Clean(s, steps) <==> Doubled(s, steps) == 0
    decreases |steps|
  {
    if steps != [] {
      CleanIff(Apply(s, steps[0]), steps[1..]);
    }
  }

  function InHand(s: State): nat {
    if s.worker.Concluding? && s.worker.success then 1 else 0
  }

  /** Rows beyond one for each record written. */
  function Surplus(s: State): int {
    |s.rows| - |Written(s.outcomes)| - InHand(s)
  }

  lemma WrittenSnoc(outcomes: seq<Outcome>, o: Outcome)
    ensures Written(outcomes + [o]) == Written(outcomes) + (if o.success then [o.record] else [])
  {
    assert (outcomes + [o])[..|outcomes|] == outcomes;
  }

  lemma ApplySurplus(s: State, step: Step)
    ensures Surplus(Apply(s, step)) == Surplus(s) + (if Doubles(s, step) then 1 else 0)
    ensures RowsFit(s) && !Doubles(s, step) ==> RowsFit(Apply(s, step))
  {
    if step.TaskDone? && s.worker.Concluding? {
      WrittenSnoc(s.outcomes, Outcome(s.worker.record, s.worker.success, s.worker.attempts));
    }
  }

  /** In any run the surplus rows are exactly the attempts that committed and raised. */
  lemma {:induction false} RunSurplus(s: State, steps: seq<Step>)
    ensures Surplus(Run(s, steps)) == Surplus(s) + Doubled(s, steps)
    ensures RowsFit(s) && Doubled(s, steps) == 0 ==> RowsFit(Run(s, steps))
    decreases |steps|
  {
    if steps != [] {
      ApplySurplus(s, steps[0]);
      RunSurplus(Apply(s, steps[0]), steps[1..]);
    }
  }

  /** The table has one row for each record written, in order of acceptance, and none for a failure,
      exactly when no attempt committed and raised; each one that did has left a row too many. */
  lemma RowsAreWrittenIff(steps: seq<Step>)
    ensures RowsFit(Run(Init(), steps)) <==> Clean(Init(), steps)
    ensures Surplus(Run(Init(), steps)) == Doubled(Init(), steps)
  {
    CleanIff(Init(), steps);
    RunSurplus(Init(), steps);
  }

  /** An insert that commits and then raises is tried again: one record, two rows. */
  lemma RaiseAfterCommitDuplicates(r: Record)
    ensures exists steps: seq<Step> ::
              var s := Run(Init(), steps);
              s.accepted == [r] && s.outcomes == [Outcome(r, true, 2)] && s.rows == [r, r]
  {
    var s1 := Apply(Init(), Submit(r));
    var s2 := Apply(s1, Get);
    var s3 := Apply(s2, Attempt(true, true));
    var s4 := Apply(s3, Attempt(true, false));
    assert s1.queue == [Task(r)] && s2.worker == Attempting(r, 1) && s3.worker == Attempting(r, 2);
    var t2 := [Attempt(true, true)] + ([Attempt(true, false)] + [TaskDone]);
    RunCons(s4, TaskDone, []);
    assert [TaskDone] + [] == [TaskDone];
    RunCons(s3, Attempt(true, false), [TaskDone]);
    RunCons(s2, Attempt(true, true), [Attempt(true, false)] + [TaskDone]);
    RunCons(s1, Get, t2);
    RunCons(Init(), Submit(r), [Get] + t2);
  }

  lemma RunCons(s: State, a: Step, rest: seq<Step>)
    ensures Run(s, [a] + rest) == Run(Apply(s, a), rest)
  {
    assert ([a] + rest)[1..] == rest;
  }

  // ---------------------------------------------------------------- when a flush can return

  /** The items behind the first stop sentinel. */
  function BehindStop(queue: seq<Item>): seq<Item> {
    if queue == [] then []
    else if queue[0].StopSentinel? then queue[1..]
    else BehindStop(queue[1..])
  }

  /** Items no worker will ever get to. */
  function Stranded(s: State): seq<Item> {
    if s.worker.Stopping? || s.worker.Exited? then s.queue else BehindStop(s.queue)
  }

  lemma {:induction false} BehindStopSnoc(queue: seq<Item>, item: Item)
    requires BehindStop(queue) != []
    ensures BehindStop(queue + [item]) != []
  {
    if queue[0].StopSentinel? {
      assert (queue + [item])[1..] == queue[1..] + [item];
    } else {
      assert (queue + [item])[1..] == queue[1..] + [item];
      BehindStopSnoc(queue[1..], item);
    }
  }

  lemma StrandedStays(s: State, step: Step)
    requires Stranded(s) != []
    ensures Stranded(Apply(s, step)) != []
  {
    var r := Apply(s, step);
    if |r.queue| > |s.queue| && !s.worker.Stopping? && !s.worker.Exited? {
      BehindStopSnoc(s.queue, r.queue[|s.queue|]);
      assert r.queue == s.queue + [r.queue[|s.queue|]];
    }
  }

  lemma {:induction false} StrandedForever(s: State, steps: seq<Step>)
    requires Stranded(s) != []
    ensures Stranded(Run(s, steps)) != []
    decreases |steps|
  {
    if steps != [] {
      StrandedStays(s, steps[0]);
      StrandedForever(Apply(s, steps[0]), steps[1..]);
    }
  }

  /** Steps the worker has still to take: per queued item, and for what it has in hand. */
  function Work(s: State): nat {
    6 * |s.queue| + match s.worker
                    case Attempting(_, n) => 2 + (if n < RETRIES then RETRIES - n else 0)
                    case Concluding(_, _, _) => 1
                    case Stopping => 1
                    case _ => 0
  }

  function WorkerStep(w: Worker): Step {
    match w
    case Polling => Get
    case Attempting(_, _) => Attempt(true, false)
    case _ => TaskDone
  }

  lemma WorkerProgresses(s: State)
    requires WorkerOk(s.worker) && Stranded(s) == []
    requires s.queue != [] || !(s.worker.Polling? || s.worker.Exited?)
    ensures var r := Apply(s, WorkerStep(s.worker));
            Work(r) < Work(s) && Stranded(r) == []
  {
  }

  lemma {:induction false} CanFinish(s: State) returns (steps: seq<Step>)
    requires Inv(s) && Stranded(s) == []
    ensures Run(s, steps).unfinished == 0
    decreases Work(s)
  {
    if s.unfinished == 0 {
      steps := [];
    } else {
      var step := WorkerStep(s.worker);
      ApplyKeepsInv(s, step);
      WorkerProgresses(s);
      var rest := CanFinish(Apply(s, step));
      steps := [step] + rest;
      RunCons(s, step, rest);
    }
  }

  /** A flush waits without a time limit, since `join` takes none and does not raise: it can
      return, in some continuation, exactly when no item is behind a stop sentinel. */
  lemma FlushCanReturnIff(before: seq<Step>)
    ensures var s := Run(Init(), before);
            (exists after: seq<Step> :: Run(s, after).unfinished == 0) <==> Stranded(s) == []
  {
    var s := Run(Init(), before);
    RunKeepsInv(Init(), before);
    if Stranded(s) == [] {
      var after := CanFinish(s);
    } else {
      forall after: seq<Step> ensures Run(s, after).unfinished != 0 {
        StrandedForever(s, after);
        RunKeepsInv(s, after);
        StrandedUnfinished(Run(s, after));
      }
    }
  }

  lemma SubmitAfterStop(r: Record)
    ensures var s := Run(Init(), [PutStop] + [Submit(r)]);
            s.accepted == [r] && Stranded(s) == [Task(r)]
  {
    var s := Apply(Apply(Init(), PutStop), Submit(r));
    RunCons(Init(), PutStop, [Submit(r)]);
    RunCons(Apply(Init(), PutStop), Submit(r), []);
    assert [Submit(r)] + [] == [Submit(r)];
    assert s.queue == [StopSentinel, Task(r)];
    assert s.queue[1..] == [Task(r)];
  }

  /** A record submitted after a stop is stranded: a flush after it waits for ever. */
  lemma SubmitAfterStopStrands(r: Record, after: seq<Step>)
    ensures var s := Run(Init(), [PutStop] + [Submit(r)]);
            s.accepted == [r] && Stranded(s) == [Task(r)] && Run(s, after).unfinished > 0
  {
    var s := Run(Init(), [PutStop] + [Submit(r)]);
    SubmitAfterStop(r);
    RunKeepsInv(Init(), [PutStop] + [Submit(r)]);
    RunKeepsInv(s, after);
    StrandedForever(s, after);
    StrandedUnfinished(Run(s, after));
  }

  lemma StrandedUnfinished(s: State)
    requires Inv(s) && Stranded(s) != []
    ensures s.unfinished > 0
  {
  }

  // ---------------------------------------------------------------- the code

  /** How one attempt to insert went. */
  datatype Try = Try(committed: bool, raised: bool)

  function Attempts(tries: seq<Try>): seq<Step> {
    seq(|tries|, i requires 0 <= i < |tries| => Attempt(tries[i].committed, tries[i].raised))
  }

  /** One round of the worker, with an outcome in hand for every attempt it might need; the
      attempts it does not need are steps that are not enabled. */
  function ItemSteps(tries: seq<Try>): seq<Step> {
    [Get] + (Attempts(tries) + [TaskDone])
  }

  lemma {:induction false} AttemptsIdle(s: State, tries: seq<Try>, rest: seq<Step>)
    requires !s.worker.Attempting?
    ensures Run(s, Attempts(tries) + rest) == Run(s, rest)
  {
    if tries == [] {
      assert Attempts(tries) + rest == rest;
    } else {
      AttemptsCons(s, tries, rest);
      AttemptsIdle(s, tries[1..], rest);
    }
  }

  lemma AttemptsCons(s: State, tries: seq<Try>, rest: seq<Step>)
    requires tries != []
    ensures Run(s, Attempts(tries) + rest)
         == Run(Apply(s, Attempt(tries[0].committed, tries[0].raised)), Attempts(tries[1..]) + rest)
  {
    var first := Attempt(tries[0].committed, tries[0].raised);
    assert Attempts(tries) + rest == [first] + (Attempts(tries[1..]) + rest);
    RunCons(s, first, Attempts(tries[1..]) + rest);
  }

  /** The writer between two items of its worker: the retry counter is a local variable of the
      worker's round. */
  class DatabaseWriter {
    var queue: seq<Item>
    var unfinished: int
    var running: bool
    var rows: seq<Record>
    ghost var submitted: seq<Record>
    ghost var printed: seq<Record>
    ghost var accepted: seq<Record>
    ghost var outcomes: seq<Outcome>

    ghost function With(worker: Worker): State
      reads this
    {
      State(queue, worker, unfinished, submitted, printed, accepted, outcomes, rows)
    }

    ghost function Now(): State
      reads this
    {
      With(if running then Polling else Exited)
    }

    constructor ()
      ensures Now() == Init()
    {
      queue, unfinished, running, rows := [], 0, true, [];
      submitted, printed, accepted, outcomes := [], [], [], [];
    }

    /** `write_trade_record`; the answer says whether the record was queued or printed. */
    method WriteTradeRecord(r: Record) returns (queued: bool)
      modifies this
      ensures Now() == Apply(old(Now()), Submit(r))
      ensures queued <==> |old(queue)| < 500
      ensures if queued then queue == old(queue) + [Task(r)] else queue == old(queue)
    {
      submitted := submitted + [r];
      queued := |queue| < MAX_SIZE;
      if queued {
        queue := queue + [Task(r)];
        unfinished := unfinished + 1;
        accepted := accepted + [r];
      } else {
        printed := printed + [r];
      }
    }

    /** One round of the loop of `_worker` on a queue that is not empty. */
    method HandleItem(tries: seq<Try>)
      requires running && queue != [] && |tries| == RETRIES
      requires forall t <- tries :: t.committed || t.raised
      modifies this
      ensures Now() == Run(old(Now()), ItemSteps(tries))
    {
      ghost var start := Now();
      RunCons(start, Get, Attempts(tries) + [TaskDone]);
      var item := queue[0];
      queue := queue[1..];
      if item.StopSentinel? {
        AttemptsIdle(With(Stopping), tries, [TaskDone]);
        RunCons(With(Stopping), TaskDone, []);
        assert [TaskDone] + [] == [TaskDone];
        unfinished := unfinished - 1;
        running := false;
        return;
      }
      var success, attempts := Write(item.record, tries);
      RunCons(With(Concluding(item.record, success, attempts)), TaskDone, []);
      assert [TaskDone] + [] == [TaskDone];
      outcomes := outcomes + [Outcome(item.record, success, attempts)];
      unfinished := unfinished - 1;
    }

    /** The retry loop: up to three attempts, until one does not raise. */
    method Write(r: Record, tries: seq<Try>) returns (success: bool, attempts: nat)
      requires |tries| == RETRIES && forall t <- tries :: t.committed || t.raised
      modifies this`rows
      ensures Run(old(With(Attempting(r, 1))), Attempts(tries) + [TaskDone])
           == Run(With(Concluding(r, success, attempts)), [TaskDone])
    {
      ghost var start := With(Attempting(r, 1));
      success, attempts := false, 0;
      while attempts < RETRIES && !success
        invariant attempts <= RETRIES
        invariant var now := if success || attempts == RETRIES then Concluding(r, success, attempts)
                             else Attempting(r, attempts + 1);
                  Run(start, Attempts(tries) + [TaskDone]) == Run(With(now), Attempts(tries[attempts..]) + [TaskDone])
        decreases RETRIES - attempts, !success
      {
        AttemptsCons(With(Attempting(r, attempts + 1)), tries[attempts..], [TaskDone]);
        var t := tries[attempts];
        assert t in tries && tries[attempts..][1..] == tries[attempts + 1..];
        attempts := attempts + 1;
        if t.committed {
          rows := rows + [r];
        }
        success := !t.raised;
      }
      AttemptsIdle(With(Concluding(r, success, attempts)), tries[attempts..], [TaskDone]);
    }
  }
}
