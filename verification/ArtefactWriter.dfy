/**
 `append_record` of src/event_intelligence/writers.py as interleaved steps: any number of
 threads appending to any number of artefacts, reads that may fail, writes that may raise,
 lock-free readers, and a crash of the process at any step.

 A step that is not enabled leaves the state alone, so a run is any sequence of steps.
 `committed` is the log of what each rename has made visible, in order.
 */
module ArtefactWriter {
  import opened Containers

  datatype Path = Path(name: string)
  datatype Record = Record(text: string)
  datatype Lock = Lock(id: nat)

  /** What a file holds: a whole JSON list, or the torn text of an unfinished write. */
  datatype Content = Whole(records: seq<Record>) | Torn

  /** Where a thread stands in `append_record`, in order. */
  datatype Stage = Idle | Waiting | Locked | Loaded | Writing | Written | Renamed

  /** A thread and its local variables. */
  datatype Thread = Thread(stage: Stage, path: Path, record: Record, lock: Lock, existing: seq<Record>)

  datatype State = State(
    files: map<Path, Content>,
    temps: map<Path, Content>,
    registry: map<Path, Lock>,      // _FILE_LOCKS
    held: map<Lock, nat>,           // the thread holding each lock that is taken
    nextLock: nat,
    threads: seq<Thread>,
    committed: map<Path, seq<Record>>,
    wiped: set<Path>)               // artefacts a commit has replaced after a read that lost their records

  datatype Step =
    | Begin(t: nat, path: Path, record: Record)
    | Acquire(t: nat)
    | Read(t: nat, fault: bool)
    | OpenTemp(t: nat)
    | FinishTemp(t: nat)
    | Rename(t: nat)
    | Release(t: nat)
    | Raise(t: nat)
    | Crash

  /** The records of an artefact: none when the file is absent. */
  function Contents(files: map<Path, Content>, path: Path): seq<Record> {
    if path in files && files[path].Whole? then files[path].records else []
  }

  function LogOf(s: State, path: Path): seq<Record> {
    if path in s.committed then s.committed[path] else []
  }

  /** `read_records`: [] when the file is absent or malformed, or when reading it fails. */
  function ReadRecords(files: map<Path, Content>, path: Path, fault: bool): seq<Record> {
    if path !in files then []
    else if fault || files[path].Torn? then []
    else files[path].records
  }

  /** Inside the lock. */
  predicate InCritical(c: Thread) {
    !c.stage.Idle? && !c.stage.Waiting?
  }

  /** Past the read of the artefact and not yet past the rename. */
  predicate HasRead(c: Thread) {
    c.stage.Loaded? || c.stage.Writing? || c.stage.Written?
  }

  const RESTING := Thread(Idle, Path(""), Record(""), Lock(0), [])

  function At(s: State, t: nat): Thread {
    if t < |s.threads| then s.threads[t] else RESTING
  }

  function Moved(s: State, t: nat, c: Thread): State {
    if t < |s.threads| then s.(threads := s.threads[t := c]) else s
  }

  /** `_lock_for`, atomic under its own lock. */
  function Registered(s: State, path: Path): (r: State)
    ensures path in r.registry
  {
    if path in s.registry then s
    else s.(registry := s.registry[path := Lock(s.nextLock)], nextLock := s.nextLock + 1)
  }

  function DoBegin(s: State, t: nat, path: Path, record: Record): State {
    if t >= |s.threads| || !At(s, t).stage.Idle? then s
    else
      var r := Registered(s, path);
      Moved(r, t, Thread(Waiting, path, record, r.registry[path], []))
  }

  function DoAcquire(s: State, t: nat): State {
    var c := At(s, t);
    if !c.stage.Waiting? || c.lock in s.held then s
    else Moved(s, t, c.(stage := Locked)).(held := s.held[c.lock := t])
  }

  function DoRead(s: State, t: nat, fault: bool): State {
    var c := At(s, t);
    if !c.stage.Locked? then s
    else Moved(s, t, c.(stage := Loaded, existing := ReadRecords(s.files, c.path, fault)))
  }

  function DoOpenTemp(s: State, t: nat): State {
    var c := At(s, t);
    if !c.stage.Loaded? then s
    else Moved(s, t, c.(stage := Writing)).(temps := s.temps[c.path := Torn])
  }

  function DoFinishTemp(s: State, t: nat): State {
    var c := At(s, t);
    if !c.stage.Writing? then s
    else Moved(s, t, c.(stage := Written)).(temps := s.temps[c.path := Whole(c.existing + [c.record])])
  }

  function DoRename(s: State, t: nat): State {
    var c := At(s, t);
    if !c.stage.Written? || c.path !in s.temps then s
    else Moved(s, t, c.(stage := Renamed))
         .(files := s.files[c.path := s.temps[c.path]],
           temps := s.temps - {c.path},
           committed := s.committed[c.path := LogOf(s, c.path) + [c.record]],
           wiped := if c.existing == Contents(s.files, c.path) then s.wiped else s.wiped + {c.path})
  }

  /** Leaving the `with` block, at its end or by an exception. */
  function DoLeave(s: State, t: nat): State {
    Moved(s, t, At(s, t).(stage := Idle)).(held := s.held - {At(s, t).lock})
  }

  function DoCrash(s: State): State {
    s.(threads := seq(|s.threads|, _ => RESTING), registry := map[], held := map[], nextLock := 0)
  }

  function Apply(s: State, step: Step): State {
    match step
    case Begin(t, path, record) => DoBegin(s, t, path, record)
    case Acquire(t) => DoAcquire(s, t)
    case Read(t, fault) => DoRead(s, t, fault)
    case OpenTemp(t) => DoOpenTemp(s, t)
    case FinishTemp(t) => DoFinishTemp(s, t)
    case Rename(t) => DoRename(s, t)
    case Release(t) => if At(s, t).stage.Renamed? then DoLeave(s, t) else s
    case Raise(t) => if InCritical(At(s, t)) then DoLeave(s, t) else s
    case Crash => DoCrash(s)
  }

  function Run(s: State, steps: seq<Step>): State
    decreases |steps|
  {
    if steps == [] then s else Run(Apply(s, steps[0]), steps[1..])
  }

  /** A process starting on a data directory whose artefacts are well formed; stale temporary
      files of any content may be lying about. */
  ghost predicate Start(s: State) {
    && (forall p <- s.files :: s.files[p].Whole?)
    && s.registry == map[] && s.held == map[]
    && (forall t | 0 <= t < |s.threads| :: s.threads[t].stage.Idle?)
    && (forall p :: LogOf(s, p) == Contents(s.files, p))
    && s.wiped == {}
  }

  // ---------------------------------------------------------------- the invariant

  /** A thread past `_lock_for` has the path's one lock; inside the lock it is the holder, and
      what it has read and written so far fits the file. */
  ghost predicate ThreadOk(s: State, t: nat) {
    var c := At(s, t);
    && (!c.stage.Idle? ==> c.path in s.registry && s.registry[c.path] == c.lock)
    && (InCritical(c) ==> c.lock in s.held && s.held[c.lock] == t)
    && (HasRead(c) ==> c.existing == Contents(s.files, c.path) || c.existing == [])
    && (c.stage.Writing? ==> c.path in s.temps && s.temps[c.path] == Torn)
    && (c.stage.Written? ==> c.path in s.temps && s.temps[c.path] == Whole(c.existing + [c.record]))
  }

  /** Different artefacts have different locks, numbered below the next one. */
  ghost predicate PathsOk(s: State, p: Path, q: Path) {
    && (p in s.registry ==> s.registry[p].id < s.nextLock)
    && (p in s.registry && q in s.registry && p != q ==> s.registry[p] != s.registry[q])
  }

  /** A lock that is taken is taken by a thread inside it. */
  ghost predicate LockOk(s: State, l: Lock) {
    l in s.held ==> InCritical(At(s, s.held[l])) && At(s, s.held[l]).lock == l
  }

  ghost predicate IsSuffix(a: seq<Record>, b: seq<Record>) {
    |a| <= |b| && a == b[|b| - |a|..]
  }

  /** The artefact holds the newest records of its log: all of them exactly when it was never wiped. */
  ghost predicate FileOk(s: State, p: Path) {
    && (p in s.files ==> s.files[p].Whole?)
    && IsSuffix(Contents(s.files, p), LogOf(s, p))
    && (Contents(s.files, p) == LogOf(s, p) <==> p !in s.wiped)
  }

  ghost predicate Inv(s: State) {
    && (forall p, q :: PathsOk(s, p, q))
    && (forall l :: LockOk(s, l))
    && (forall t: nat :: ThreadOk(s, t))
    && (forall p: Path :: FileOk(s, p))
  }

  lemma StartInv(s: State)
    requires Start(s)
    ensures Inv(s)
  {
    forall p: Path ensures FileOk(s, p) {
      assert LogOf(s, p) == Contents(s.files, p);
    }
  }

  /** Two threads are never inside the lock of one artefact. */
  lemma MutualExclusion(s: State, t: nat, u: nat)
    requires Inv(s) && InCritical(At(s, t)) && InCritical(At(s, u)) && At(s, t).path == At(s, u).path
    ensures t == u
  {
    assert ThreadOk(s, t) && ThreadOk(s, u);
  }

  /** Another thread inside a lock is at another artefact, under another lock. */
  lemma OtherArtefact(s: State, t: nat, u: nat)
    requires Inv(s) && t != u && InCritical(At(s, t)) && InCritical(At(s, u))
    ensures At(s, u).path != At(s, t).path && At(s, u).lock != At(s, t).lock
  {
    assert ThreadOk(s, t) && ThreadOk(s, u);
    assert PathsOk(s, At(s, t).path, At(s, u).path);
  }

  /** Files, log and registry untouched: the artefacts and their locks stay as good as they were. */
  lemma SameFiles(s: State, r: State)
    requires Inv(s) && r.files == s.files && r.committed == s.committed && r.wiped == s.wiped
    ensures forall p: Path :: FileOk(r, p)
  {
    forall p: Path ensures FileOk(r, p) {
      assert FileOk(s, p);
    }
  }

  lemma SameRegistry(s: State, r: State)
    requires Inv(s) && r.registry == s.registry && r.nextLock == s.nextLock
    ensures forall p, q :: PathsOk(r, p, q)
  {
    forall p, q ensures PathsOk(r, p, q) {
      assert PathsOk(s, p, q);
    }
  }

  /** No thread went in or out. */
  lemma SameHolders(s: State, r: State, t: nat)
    requires Inv(s) && r.held == s.held
    requires forall u: nat | u != t :: At(r, u) == At(s, u)
    requires InCritical(At(s, t)) ==> InCritical(At(r, t)) && At(r, t).lock == At(s, t).lock
    ensures forall l :: LockOk(r, l)
  {
    forall l ensures LockOk(r, l) {
      assert LockOk(s, l);
    }
  }

  lemma RegisteredKeepsInv(s: State, path: Path)
    requires Inv(s)
    ensures Inv(Registered(s, path))
  {
    var r := Registered(s, path);
    SameFiles(s, r);
    SameHolders(s, r, 0);
    forall p, q ensures PathsOk(r, p, q) {
      assert PathsOk(s, p, q) && PathsOk(s, q, p);
    }
    forall u: nat ensures ThreadOk(r, u) {
      assert ThreadOk(s, u);
    }
  }

  /** A thread changes its own variables and nothing else, without going in or out. */
  lemma MoveKeepsInv(s: State, t: nat, c: Thread)
    requires Inv(s) && t < |s.threads| && ThreadOk(Moved(s, t, c), t)
    requires InCritical(At(s, t)) ==> InCritical(c) && c.lock == At(s, t).lock
    ensures Inv(Moved(s, t, c))
  {
    var r := Moved(s, t, c);
    SameFiles(s, r);
    SameRegistry(s, r);
    SameHolders(s, r, t);
    forall u: nat ensures ThreadOk(r, u) {
      if u != t {
        assert ThreadOk(s, u) && At(r, u) == At(s, u);
      }
    }
  }

  lemma WaitingKeepsInv(s: State, t: nat, path: Path, record: Record)
    requires Inv(s) && At(s, t).stage.Idle? && path in s.registry
    ensures Inv(Moved(s, t, Thread(Waiting, path, record, s.registry[path], [])))
  {
    if t < |s.threads| {
      MoveKeepsInv(s, t, Thread(Waiting, path, record, s.registry[path], []));
    }
  }

  lemma BeginKeepsInv(s: State, t: nat, path: Path, record: Record)
    requires Inv(s)
    ensures Inv(DoBegin(s, t, path, record))
  {
    RegisteredKeepsInv(s, path);
    if t < |s.threads| && At(s, t).stage.Idle? {
      WaitingKeepsInv(Registered(s, path), t, path, record);
    }
  }

  lemma AcquireKeepsInv(s: State, t: nat)
    requires Inv(s)
    ensures Inv(DoAcquire(s, t))
  {
    var r := DoAcquire(s, t);
    SameFiles(s, r);
    SameRegistry(s, r);
    forall l ensures LockOk(r, l) {
      assert LockOk(s, l);
    }
    forall u: nat ensures ThreadOk(r, u) {
      assert ThreadOk(s, u);
    }
  }

  lemma ReadKeepsInv(s: State, t: nat, fault: bool)
    requires Inv(s)
    ensures Inv(DoRead(s, t, fault))
  {
    var c := At(s, t);
    if c.stage.Locked? {
      assert ThreadOk(s, t) && FileOk(s, c.path);
      MoveKeepsInv(s, t, c.(stage := Loaded, existing := ReadRecords(s.files, c.path, fault)));
    }
  }

  lemma OpenTempKeepsInv(s: State, t: nat)
    requires Inv(s)
    ensures Inv(DoOpenTemp(s, t))
  {
    var r := DoOpenTemp(s, t);
    SameFiles(s, r);
    SameRegistry(s, r);
    SameHolders(s, r, t);
    forall u: nat ensures ThreadOk(r, u) {
      assert ThreadOk(s, u) && ThreadOk(s, t);
      if u != t && InCritical(At(s, u)) && InCritical(At(s, t)) {
        OtherArtefact(s, t, u);
      }
    }
  }

  lemma FinishTempKeepsInv(s: State, t: nat)
    requires Inv(s)
    ensures Inv(DoFinishTemp(s, t))
  {
    var r := DoFinishTemp(s, t);
    SameFiles(s, r);
    SameRegistry(s, r);
    SameHolders(s, r, t);
    forall u: nat ensures ThreadOk(r, u) {
      assert ThreadOk(s, u) && ThreadOk(s, t);
      if u != t && InCritical(At(s, u)) && InCritical(At(s, t)) {
        OtherArtefact(s, t, u);
      }
    }
  }

  lemma LeaveKeepsInv(s: State, t: nat)
    requires Inv(s) && InCritical(At(s, t))
    ensures Inv(DoLeave(s, t))
  {
    var r := DoLeave(s, t);
    SameFiles(s, r);
    SameRegistry(s, r);
    assert ThreadOk(s, t);
    forall l ensures LockOk(r, l) {
      assert LockOk(s, l);
    }
    forall u: nat ensures ThreadOk(r, u) {
      assert ThreadOk(s, u);
      if u != t && InCritical(At(s, u)) {
        OtherArtefact(s, t, u);
      }
    }
  }

  /** A commit appends to the log; the artefact follows, or starts again with the one record. */
  lemma CommitKeepsFile(held: seq<Record>, log: seq<Record>, existing: seq<Record>, record: Record)
    requires IsSuffix(held, log)
    requires existing == held || existing == []
    ensures IsSuffix(existing + [record], log + [record])
    ensures existing + [record] == log + [record] <==> existing == held && held == log
  {
    assert (log + [record])[..|log|] == log && (existing + [record])[..|existing|] == existing;
  }

  lemma RenameKeepsFile(s: State, t: nat, p: Path)
    requires FileOk(s, p) && ThreadOk(s, t)
    ensures FileOk(DoRename(s, t), p)
  {
    if At(s, t).stage.Written? {
      if At(s, t).path == p {
        RenameKeepsOwn(s, t);
      } else {
        RenameKeepsOther(s, t, p);
      }
    }
  }

  lemma RenameKeepsOwn(s: State, t: nat)
    requires At(s, t).stage.Written? && FileOk(s, At(s, t).path) && ThreadOk(s, t)
    ensures FileOk(DoRename(s, t), At(s, t).path)
  {
    var r, c := DoRename(s, t), At(s, t);
    CommitKeepsFile(Contents(s.files, c.path), LogOf(s, c.path), c.existing, c.record);
    assert r.files[c.path] == Whole(c.existing + [c.record]);
    assert LogOf(r, c.path) == LogOf(s, c.path) + [c.record];
    assert c.path in r.wiped <==> c.path in s.wiped || c.existing != Contents(s.files, c.path);
  }

  lemma RenameKeepsOther(s: State, t: nat, p: Path)
    requires At(s, t).path != p && FileOk(s, p)
    ensures FileOk(DoRename(s, t), p)
  {
    var r := DoRename(s, t);
    assert Contents(r.files, p) == Contents(s.files, p) && LogOf(r, p) == LogOf(s, p);
    assert p in r.wiped <==> p in s.wiped;
  }

  lemma RenameKeepsInv(s: State, t: nat)
    requires Inv(s)
    ensures Inv(DoRename(s, t))
  {
    var r := DoRename(s, t);
    SameRegistry(s, r);
    SameHolders(s, r, t);
    forall u: nat ensures ThreadOk(r, u) {
      assert ThreadOk(s, u) && ThreadOk(s, t);
      if u != t && InCritical(At(s, u)) && InCritical(At(s, t)) {
        OtherArtefact(s, t, u);
      }
    }
    forall p: Path ensures FileOk(r, p) {
      assert FileOk(s, p) && ThreadOk(s, t);
      RenameKeepsFile(s, t, p);
    }
  }

  lemma CrashKeepsInv(s: State)
    requires Inv(s)
    ensures Inv(DoCrash(s))
  {
    var r := DoCrash(s);
    SameFiles(s, r);
    assert forall t: nat :: At(r, t) == RESTING;
  }

  lemma ApplyKeepsInv(s: State, step: Step)
    requires Inv(s)
    ensures Inv(Apply(s, step))
  {
    match step
    case Begin(t, path, record) => BeginKeepsInv(s, t, path, record);
    case Acquire(t) => AcquireKeepsInv(s, t);
    case Read(t, fault) => ReadKeepsInv(s, t, fault);
    case OpenTemp(t) => OpenTempKeepsInv(s, t);
    case FinishTemp(t) => FinishTempKeepsInv(s, t);
    case Rename(t) => RenameKeepsInv(s, t);
    case Release(t) => if At(s, t).stage.Renamed? { LeaveKeepsInv(s, t); }
    case Raise(t) => if InCritical(At(s, t)) { LeaveKeepsInv(s, t); }
    case Crash => CrashKeepsInv(s);
  }

  lemma {:induction false} RunKeepsInv(s: State, steps: seq<Step>)
    requires Inv(s)
    ensures Inv(Run(s, steps))
    decreases |steps|
  {
    if steps != [] {
      ApplyKeepsInv(s, steps[0]);
      RunKeepsInv(Apply(s, steps[0]), steps[1..]);
    }
  }

  // ---------------------------------------------------------------- every interleaving

  /** Whatever the interleaving, the failing reads and writes and the crashes: an artefact is
      never torn, so the malformed-file branch is never taken; it holds the newest records of
      its log in lock order; and it holds all of them exactly when it was never wiped. */
  lemma EveryInterleaving(s: State, steps: seq<Step>, p: Path)
    requires Start(s)
    ensures var r := Run(s, steps);
            && (p in r.files ==> r.files[p].Whole?)
            && IsSuffix(Contents(r.files, p), LogOf(r, p))
            && (Contents(r.files, p) == LogOf(r, p) <==> p !in r.wiped)
  {
    StartInv(s);
    RunKeepsInv(s, steps);
    assert FileOk(Run(s, steps), p);
  }

  /** What decides at a commit: it keeps the earlier records exactly when the read under the
      same lock brought them back, and it comes up short only with the empty list. */
  lemma CommitKeepsRecordsIff(s: State, t: nat)
    requires Inv(s) && At(s, t).stage.Written?
    ensures var c, r := At(s, t), Apply(s, Rename(t));
            && (c.record in Contents(r.files, c.path))
            && (Contents(r.files, c.path) == Contents(s.files, c.path) + [c.record]
                <==> !(c.existing == [] && Contents(s.files, c.path) != []))
  {
    assert ThreadOk(s, t);
    var c := At(s, t);
    assert Contents(Apply(s, Rename(t)).files, c.path) == c.existing + [c.record];
    if c.existing == [] {
      assert |[] + [c.record]| == 1;
    }
  }

  // ---------------------------------------------------------------- which runs wipe an artefact

  lemma {:induction false} RunSnoc(s: State, steps: seq<Step>, last: Step)
    ensures Run(s, steps + [last]) == Apply(Run(s, steps), last)
    decreases |steps|
  {
    if steps == [] {
      assert steps + [last] == [last];
      assert [last][1..] == [];
      assert Run(s, [last]) == Run(Apply(s, last), []);
    } else {
      assert (steps + [last])[1..] == steps[1..] + [last];
      RunSnoc(Apply(s, steps[0]), steps[1..], last);
    }
  }

  /** Thread `t` reads its artefact, the read fails, and there were records to read. */
  predicate MissesRecords(s: State, t: nat, fault: bool) {
    fault && Contents(s.files, At(s, t).path) != []
  }

  /** The threads whose latest read in the run missed records. */
  function Missed(s: State, steps: seq<Step>): set<nat> {
    if steps == [] then {}
    else
      var front, last := steps[..|steps| - 1], steps[|steps| - 1];
      var m := Run(s, front);
      if last.Read? && At(m, last.t).stage.Locked?
      then if MissesRecords(m, last.t, last.fault) then Missed(s, front) + {last.t} else Missed(s, front) - {last.t}
      else Missed(s, front)
  }

  /** Some thread renames its file over artefact `p` after a read that missed records. */
  predicate CommitsAfterMiss(s: State, steps: seq<Step>, p: Path) {
    steps != []
    && var front, last := steps[..|steps| - 1], steps[|steps| - 1];
       var m := Run(s, front);
       || CommitsAfterMiss(s, front, p)
       || (last.Rename? && At(m, last.t).stage.Written? && At(m, last.t).path == p && last.t in Missed(s, front))
  }

  /** What a thread has in hand is short of its artefact exactly when its latest read missed records. */
  ghost predicate MissedFits(s: State, missed: set<nat>, t: nat) {
    HasRead(At(s, t)) ==> (At(s, t).existing != Contents(s.files, At(s, t).path) <==> t in missed)
  }

  lemma {:induction false} EveryMissedFits(s: State, steps: seq<Step>, t: nat)
    requires Start(s)
    ensures MissedFits(Run(s, steps), Missed(s, steps), t)
    decreases |steps|
  {
    if steps == [] {
      assert t < |s.threads| ==> s.threads[t].stage.Idle?;
    } else {
      var front, last := steps[..|steps| - 1], steps[|steps| - 1];
      assert steps == front + [last];
      RunSnoc(s, front, last);
      EveryMissedFits(s, front, t);
      StartInv(s);
      RunKeepsInv(s, front);
      if last.Rename? {
        RenameMissedFits(Run(s, front), last.t, Missed(s, front), t);
      } else {
        StepMissedFits(Run(s, front), last, Missed(s, front), Missed(s, steps), t);
      }
    }
  }

  lemma RenameMissedFits(m: State, u: nat, missed: set<nat>, t: nat)
    requires Inv(m) && MissedFits(m, missed, t)
    ensures MissedFits(DoRename(m, u), missed, t)
  {
    if u != t && InCritical(At(m, t)) && InCritical(At(m, u)) {
      OtherArtefact(m, u, t);
    }
  }

  lemma StepMissedFits(m: State, step: Step, missed: set<nat>, after: set<nat>, t: nat)
    requires MissedFits(m, missed, t) && FileOk(m, At(m, t).path) && !step.Rename?
    requires t in after <==>
               if step == Read(t, true) && At(m, t).stage.Locked? && MissesRecords(m, t, true) then true
               else if step.Read? && step.t == t && At(m, t).stage.Locked? then false
               else t in missed
    ensures MissedFits(Apply(m, step), after, t)
  {
    if !(step.Read? && step.t == t && At(m, t).stage.Locked?) {
      KeepsReads(m, step, t);
    }
  }

  lemma KeepsReads(m: State, step: Step, t: nat)
    requires !step.Rename? && !(step.Read? && step.t == t && At(m, t).stage.Locked?)
    ensures SameRead(m, Apply(m, step), t)
  {
    if step.Begin? || step.Acquire? || step.Read? {
      EntryKeepsReads(m, step, t);
    } else if step.OpenTemp? || step.FinishTemp? {
      TempKeepsReads(m, step, t);
    } else {
      ExitKeepsReads(m, step, t);
    }
  }

  /** What thread `t` has read is what it had read before, if anything. */
  predicate SameRead(m: State, r: State, t: nat) {
    && r.files == m.files
    && (HasRead(At(r, t)) ==>
          HasRead(At(m, t)) && At(r, t).existing == At(m, t).existing && At(r, t).path == At(m, t).path)
  }

  lemma EntryKeepsReads(m: State, step: Step, t: nat)
    requires step.Begin? || step.Acquire? || step.Read?
    requires !(step.Read? && step.t == t && At(m, t).stage.Locked?)
    ensures SameRead(m, Apply(m, step), t)
  {
  }

  lemma TempKeepsReads(m: State, step: Step, t: nat)
    requires step.OpenTemp? || step.FinishTemp?
    ensures SameRead(m, Apply(m, step), t)
  {
  }

  lemma ExitKeepsReads(m: State, step: Step, t: nat)
    requires step.Release? || step.Raise? || step.Crash?
    ensures SameRead(m, Apply(m, step), t)
  {
  }

  /** An artefact has lost records, so that it is no longer its whole log, exactly when some thread
      has committed to it after a read that failed while there were records to read. */
  lemma {:induction false} LosesRecordsIff(s: State, steps: seq<Step>, p: Path)
    requires Start(s)
    ensures p in Run(s, steps).wiped <==> CommitsAfterMiss(s, steps, p)
    ensures Contents(Run(s, steps).files, p) == LogOf(Run(s, steps), p) <==> !CommitsAfterMiss(s, steps, p)
    decreases |steps|
  {
    if steps != [] {
      var front, last := steps[..|steps| - 1], steps[|steps| - 1];
      assert steps == front + [last];
      RunSnoc(s, front, last);
      LosesRecordsIff(s, front, p);
      if last.Rename? {
        EveryMissedFits(s, front, last.t);
        StartInv(s);
        RunKeepsInv(s, front);
        assert ThreadOk(Run(s, front), last.t);
      } else {
        assert Apply(Run(s, front), last).wiped == Run(s, front).wiped;
      }
    }
    EveryInterleaving(s, steps, p);
  }

  // ---------------------------------------------------------------- reads that do not fail

  /** Every read so far has brought back what the file held. */
  ghost predicate Faithful(s: State) {
    && s.wiped == {}
    && forall t: nat :: FaithfulAt(s, t)
  }

  /** What one thread has read is what is in its artefact. */
  ghost predicate FaithfulAt(s: State, t: nat) {
    HasRead(At(s, t)) ==> At(s, t).existing == Contents(s.files, At(s, t).path)
  }

  lemma RenameKeepsFaithful(s: State, t: nat, u: nat)
    requires Inv(s) && Faithful(s)
    ensures FaithfulAt(DoRename(s, t), u) && DoRename(s, t).wiped == {}
  {
    assert FaithfulAt(s, u) && FaithfulAt(s, t);
    if u != t && InCritical(At(s, u)) && InCritical(At(s, t)) {
      OtherArtefact(s, t, u);
    }
  }

  lemma ReadKeepsFaithful(s: State, t: nat, u: nat)
    requires Inv(s) && Faithful(s)
    ensures FaithfulAt(DoRead(s, t, false), u)
  {
    assert FaithfulAt(s, u) && FileOk(s, At(s, t).path);
  }

  /** Nothing new was read, and no artefact changed. */
  lemma SameReads(s: State, r: State)
    requires Faithful(s) && r.files == s.files && r.wiped == s.wiped
    requires forall u: nat | HasRead(At(r, u)) ::
               HasRead(At(s, u)) && At(r, u).path == At(s, u).path && At(r, u).existing == At(s, u).existing
    ensures Faithful(r)
  {
    forall u: nat ensures FaithfulAt(r, u) {
      assert FaithfulAt(s, u);
    }
  }

  lemma EntryKeepsFaithful(s: State, step: Step)
    requires Faithful(s) && (step.Begin? || step.Acquire?)
    ensures Faithful(Apply(s, step))
  {
    SameReads(s, Apply(s, step));
  }

  lemma TempKeepsFaithful(s: State, step: Step)
    requires Faithful(s) && (step.OpenTemp? || step.FinishTemp?)
    ensures Faithful(Apply(s, step))
  {
    SameReads(s, Apply(s, step));
  }

  lemma ExitKeepsFaithful(s: State, step: Step)
    requires Faithful(s) && (step.Release? || step.Raise? || step.Crash?)
    ensures Faithful(Apply(s, step))
  {
    SameReads(s, Apply(s, step));
  }

  lemma ApplyKeepsFaithful(s: State, step: Step)
    requires Inv(s) && Faithful(s) && !(step.Read? && step.fault)
    ensures Faithful(Apply(s, step))
  {
    var r := Apply(s, step);
    if step.Read? {
      forall u: nat ensures FaithfulAt(r, u) {
        ReadKeepsFaithful(s, step.t, u);
      }
    } else if step.Rename? {
      RenameKeepsFaithful(s, step.t, step.t);
      forall u: nat ensures FaithfulAt(r, u) {
        RenameKeepsFaithful(s, step.t, u);
      }
    } else if step.Begin? || step.Acquire? {
      EntryKeepsFaithful(s, step);
    } else if step.OpenTemp? || step.FinishTemp? {
      TempKeepsFaithful(s, step);
    } else {
      ExitKeepsFaithful(s, step);
    }
  }

  lemma {:induction false} RunKeepsFaithful(s: State, steps: seq<Step>)
    requires Inv(s) && Faithful(s)
    requires forall i | 0 <= i < |steps| :: !(steps[i].Read? && steps[i].fault)
    ensures Faithful(Run(s, steps)) && Inv(Run(s, steps))
    decreases |steps|
  {
    if steps != [] {
      ApplyKeepsInv(s, steps[0]);
      ApplyKeepsFaithful(s, steps[0]);
      RunKeepsFaithful(Apply(s, steps[0]), steps[1..]);
    }
  }

  lemma LogGrowsOnce(s: State, step: Step, p: Path)
    ensures LogOf(s, p) <= LogOf(Apply(s, step), p)
  {
    if !step.Rename? {
      assert Apply(s, step).committed == s.committed;
    }
  }

  lemma {:induction false} LogGrows(s: State, steps: seq<Step>, p: Path)
    ensures LogOf(s, p) <= LogOf(Run(s, steps), p)
    decreases |steps|
  {
    if steps != [] {
      LogGrowsOnce(s, steps[0], p);
      LogGrows(Apply(s, steps[0]), steps[1..], p);
    }
  }

  /** While reads do not fail, no update is lost: at every moment of every run the artefact is
      its whole log, and what a lock-free reader got at any moment is a prefix of what is there later. */
  lemma NoUpdateLost(s: State, before: seq<Step>, after: seq<Step>, p: Path)
    requires Start(s)
    requires forall i | 0 <= i < |before| :: !(before[i].Read? && before[i].fault)
    requires forall i | 0 <= i < |after| :: !(after[i].Read? && after[i].fault)
    ensures var m := Run(s, before);
            var r := Run(m, after);
            && Contents(r.files, p) == LogOf(r, p)
            && ReadRecords(m.files, p, false) == LogOf(m, p)
            && ReadRecords(m.files, p, false) <= Contents(r.files, p)
  {
    StartInv(s);
    RunKeepsFaithful(s, before);
    RunKeepsFaithful(Run(s, before), after);
    LogGrows(Run(s, before), after, p);
    assert FileOk(Run(s, before), p) && FileOk(Run(Run(s, before), after), p);
  }

  /** A failed read does lose updates: the artefact held one record, the read under the lock
      failed and came back empty, and the append leaves the new record alone. */
  lemma FailedReadLosesUpdate(p: Path, first: Record, second: Record)
    ensures exists s: State, steps: seq<Step> ::
              && Start(s) && Contents(s.files, p) == [first]
              && Contents(Run(s, steps).files, p) == [second] && LogOf(Run(s, steps), p) == [first, second]
  {
    var s := State(map[p := Whole([first])], map[], map[], map[], 0, [RESTING], map[p := [first]], {});
    assert Start(s);
    var s1 := Apply(s, Begin(0, p, second));
    assert s1.threads[0] == Thread(Waiting, p, second, Lock(0), []);
    var s2 := Apply(s1, Acquire(0));
    var s3 := Apply(s2, Read(0, true));
    assert s3.threads[0] == Thread(Loaded, p, second, Lock(0), []);
    FailedReadTail(s3, p, first, second);
    var t3 := [OpenTemp(0)] + ([FinishTemp(0)] + [Rename(0)]);
    RunCons(s2, Read(0, true), t3);
    RunCons(s1, Acquire(0), [Read(0, true)] + t3);
    RunCons(s, Begin(0, p, second), [Acquire(0)] + ([Read(0, true)] + t3));
  }

  lemma FailedReadTail(s: State, p: Path, first: Record, second: Record)
    requires |s.threads| == 1 && s.threads[0] == Thread(Loaded, p, second, Lock(0), [])
    requires LogOf(s, p) == [first]
    ensures var r := Run(s, [OpenTemp(0)] + ([FinishTemp(0)] + [Rename(0)]));
            Contents(r.files, p) == [second] && LogOf(r, p) == [first, second]
  {
    var s1 := Apply(s, OpenTemp(0));
    var s2 := Apply(s1, FinishTemp(0));
    assert s2.temps[p] == Whole([second]) && s2.threads[0].stage.Written?;
    RunCons(s2, Rename(0), []);
    RunCons(s1, FinishTemp(0), [Rename(0)]);
    RunCons(s, OpenTemp(0), [FinishTemp(0)] + [Rename(0)]);
    assert [Rename(0)] + [] == [Rename(0)];
  }

  lemma RunCons(s: State, a: Step, rest: seq<Step>)
    ensures Run(s, [a] + rest) == Run(Apply(s, a), rest)
  {
    assert ([a] + rest)[1..] == rest;
  }

  // ---------------------------------------------------------------- no deadlock

  /** Steps a thread has still to take. */
  function Work(c: Thread): nat {
    match c.stage
    case Idle => 0
    case Renamed => 1
    case Written => 2
    case Writing => 3
    case Loaded => 4
    case Locked => 5
    case Waiting => 6
  }

  function TotalWork(threads: seq<Thread>): nat {
    if threads == [] then 0 else Work(threads[0]) + TotalWork(threads[1..])
  }

  lemma {:induction false} TotalWorkMoved(threads: seq<Thread>, t: nat, c: Thread)
    requires t < |threads|
    ensures TotalWork(threads[t := c]) == TotalWork(threads) - Work(threads[t]) + Work(c)
  {
    if t == 0 {
      assert threads[0 := c][1..] == threads[1..];
    } else {
      TotalWorkMoved(threads[1..], t - 1, c);
      assert threads[t := c][1..] == threads[1..][t - 1 := c];
    }
  }

  lemma {:induction false} NoWorkMeansIdle(threads: seq<Thread>)
    ensures TotalWork(threads) == 0 ==> forall t | 0 <= t < |threads| :: threads[t].stage.Idle?
  {
    if threads != [] {
      NoWorkMeansIdle(threads[1..]);
    }
  }

  /** The next step of a thread inside its lock. */
  function OwnStep(c: Thread, t: nat): Step {
    match c.stage
    case Locked => Read(t, false)
    case Loaded => OpenTemp(t)
    case Writing => FinishTemp(t)
    case Written => Rename(t)
    case _ => Release(t)
  }

  /** A pending append: not yet in the log. */
  ghost predicate Underway(c: Thread) {
    !c.stage.Idle? && !c.stage.Renamed?
  }

  /** The step takes thread `t` one step on: it keeps its task until its record is in the log. */
  ghost predicate Advances(s: State, step: Step, t: nat) {
    var r := Apply(s, step);
    && t < |s.threads|
    && r.threads == s.threads[t := At(r, t)]
    && Work(At(r, t)) + 1 == Work(At(s, t))
    && (Underway(At(s, t)) ==>
          if Underway(At(r, t)) then At(r, t).path == At(s, t).path && At(r, t).record == At(s, t).record
          else At(s, t).record in LogOf(r, At(s, t).path))
  }

  /** No state deadlocks: as long as an append is under way, some thread can take its next step,
      the holder of the lock if the thread itself is waiting for it. */
  lemma SomeThreadAdvances(s: State, t: nat) returns (step: Step, u: nat)
    requires Inv(s) && !At(s, t).stage.Idle?
    ensures Advances(s, step, u) && !(step.Read? && step.fault)
  {
    assert ThreadOk(s, t) && LockOk(s, At(s, t).lock);
    if At(s, t).stage.Waiting? {
      if At(s, t).lock !in s.held {
        step, u := Acquire(t), t;
      } else {
        u := s.held[At(s, t).lock];
        step := OwnStep(At(s, u), u);
        OwnStepAdvances(s, u);
      }
    } else {
      step, u := OwnStep(At(s, t), t), t;
      OwnStepAdvances(s, t);
    }
  }

  lemma OwnStepAdvances(s: State, u: nat)
    requires Inv(s) && InCritical(At(s, u))
    ensures Advances(s, OwnStep(At(s, u), u), u)
  {
    assert ThreadOk(s, u);
    if At(s, u).stage.Written? {
      assert LogOf(DoRename(s, u), At(s, u).path) == LogOf(s, At(s, u).path) + [At(s, u).record];
    }
  }

  /** From every reachable state some continuation finishes every append under way, each with its
      record in the log. */
  lemma {:induction false} AppendsCanFinish(s: State) returns (steps: seq<Step>)
    requires Inv(s)
    ensures var r := Run(s, steps);
            && (forall t: nat :: At(r, t).stage.Idle?)
            && (forall t: nat | Underway(At(s, t)) :: At(s, t).record in LogOf(r, At(s, t).path))
    decreases TotalWork(s.threads)
  {
    if t: nat :| t < |s.threads| && !s.threads[t].stage.Idle? {
      var step, u := SomeThreadAdvances(s, t);
      var s1 := Apply(s, step);
      TotalWorkMoved(s.threads, u, At(s1, u));
      ApplyKeepsInv(s, step);
      var rest := AppendsCanFinish(s1);
      steps := [step] + rest;
      RunCons(s, step, rest);
      forall v: nat | Underway(At(s, v)) ensures At(s, v).record in LogOf(Run(s, steps), At(s, v).path) {
        LogGrows(s1, rest, At(s, v).path);
        if v != u {
          assert At(s1, v) == At(s, v);
        }
      }
    } else {
      steps := [];
    }
  }

  // ---------------------------------------------------------------- the code

  /** One append that nobody interrupts: getting the lock, the work inside it, leaving it. */
  function AppendSteps(t: nat, path: Path, record: Record, fault: bool): seq<Step> {
    EnterSteps(t, path, record) + (UpdateSteps(t, fault) + [Release(t)])
  }

  function EnterSteps(t: nat, path: Path, record: Record): seq<Step> {
    [Begin(t, path, record)] + [Acquire(t)]
  }

  function UpdateSteps(t: nat, fault: bool): seq<Step> {
    [Read(t, fault)] + ([OpenTemp(t)] + ([FinishTemp(t)] + [Rename(t)]))
  }

  lemma {:induction false} RunJoin(s: State, a: seq<Step>, b: seq<Step>)
    ensures Run(s, a + b) == Run(Run(s, a), b)
    decreases |a|
  {
    if a == [] {
      assert a + b == b;
    } else {
      assert (a + b)[1..] == a[1..] + b;
      RunJoin(Apply(s, a[0]), a[1..], b);
    }
  }

  lemma RunOne(s: State, a: Step)
    ensures Run(s, [a]) == Apply(s, a)
  {
    assert [a][1..] == [];
    assert Run(Apply(s, a), []) == Apply(s, a);
  }

  lemma RunEnter(s: State, t: nat, path: Path, record: Record)
    ensures Run(s, EnterSteps(t, path, record)) == Apply(Apply(s, Begin(t, path, record)), Acquire(t))
  {
    RunCons(s, Begin(t, path, record), [Acquire(t)]);
    RunOne(Apply(s, Begin(t, path, record)), Acquire(t));
  }

  lemma RunUpdate(s: State, t: nat, fault: bool)
    ensures Run(s, UpdateSteps(t, fault))
         == Apply(Apply(Apply(Apply(s, Read(t, fault)), OpenTemp(t)), FinishTemp(t)), Rename(t))
  {
    var s1 := Apply(s, Read(t, fault));
    var s2 := Apply(s1, OpenTemp(t));
    RunCons(s, Read(t, fault), [OpenTemp(t)] + ([FinishTemp(t)] + [Rename(t)]));
    RunCons(s1, OpenTemp(t), [FinishTemp(t)] + [Rename(t)]);
    RunCons(s2, FinishTemp(t), [Rename(t)]);
    RunOne(Apply(s2, FinishTemp(t)), Rename(t));
  }

  lemma RunAppend(s: State, t: nat, path: Path, record: Record, fault: bool)
    ensures Run(s, AppendSteps(t, path, record, fault))
         == Run(Run(Run(s, EnterSteps(t, path, record)), UpdateSteps(t, fault)), [Release(t)])
  {
    RunJoin(s, EnterSteps(t, path, record), UpdateSteps(t, fault) + [Release(t)]);
    RunJoin(Run(s, EnterSteps(t, path, record)), UpdateSteps(t, fault), [Release(t)]);
  }

  /** The lock that `_lock_for` would give is not held. */
  predicate LockFree(s: State, path: Path) {
    (if path in s.registry then s.registry[path] else Lock(s.nextLock)) !in s.held
  }

  lemma HeldIsNumbered(s: State, l: Lock)
    requires Inv(s) && l in s.held
    ensures l.id < s.nextLock
  {
    assert LockOk(s, l);
    var u := s.held[l];
    assert ThreadOk(s, u) && PathsOk(s, At(s, u).path, At(s, u).path);
  }

  /** In every reachable state the lock of an artefact is free unless a thread is inside it: a lock
      made on first use is nobody's. */
  lemma LockFreeIff(s: State, path: Path)
    requires Inv(s)
    ensures LockFree(s, path) <==> forall t: nat | InCritical(At(s, t)) :: At(s, t).path != path
  {
    forall t: nat | InCritical(At(s, t)) && At(s, t).path == path ensures !LockFree(s, path) {
      assert ThreadOk(s, t);
    }
    if !LockFree(s, path) {
      LockHolder(s, path);
    }
  }

  lemma LockHolder(s: State, path: Path)
    requires Inv(s) && !LockFree(s, path)
    ensures exists t: nat :: InCritical(At(s, t)) && At(s, t).path == path
  {
    var l := if path in s.registry then s.registry[path] else Lock(s.nextLock);
    HeldIsNumbered(s, l);
    var t := s.held[l];
    assert LockOk(s, l) && ThreadOk(s, t);
    assert PathsOk(s, path, At(s, t).path);
  }

  /** The module's state: the directory, the lock registry and which locks are held. */
  class Writers {
    var files: map<Path, Content>
    var temps: map<Path, Content>
    var registry: map<Path, Lock>
    var held: map<Lock, nat>
    var nextLock: nat
    ghost var threads: seq<Thread>
    ghost var committed: map<Path, seq<Record>>
    ghost var wiped: set<Path>

    ghost function Now(): State
      reads this
    {
      State(files, temps, registry, held, nextLock, threads, committed, wiped)
    }

    /** `_lock_for`. */
    method LockFor(path: Path) returns (lock: Lock)
      modifies this`registry, this`nextLock
      ensures Now() == Registered(old(Now()), path) && lock == registry[path]
    {
      if path !in registry {
        registry := registry[path := Lock(nextLock)];
        nextLock := nextLock + 1;
      }
      return registry[path];
    }

    /** `append_record` by thread `t` while nobody has the lock of its artefact; other threads may be
        in the middle of appends to other artefacts. `fault` says whether reading the artefact
        fails. */
    method AppendRecord(t: nat, path: Path, record: Record, fault: bool)
      requires t < |threads| && threads[t].stage.Idle? && LockFree(Now(), path)
      modifies this
      ensures Now() == Run(old(Now()), AppendSteps(t, path, record, fault))
      ensures files == old(files)[path := Whole(ReadRecords(old(files), path, fault) + [record])]
      ensures held == old(held)
    {
      ghost var start := Now();
      var lock := Enter(t, path, record);
      Update(t, path, record, fault);
      Leave(t, lock);
      RunAppend(start, t, path, record, fault);
      assert held == start.held[lock := t] - {lock} == start.held;
    }

    /** What is done inside the `with` block. */
    method Update(ghost t: nat, path: Path, record: Record, fault: bool)
      requires t < |threads| && threads[t].stage.Locked? && threads[t].path == path && threads[t].record == record
      modifies this`files, this`temps, this`threads, this`committed, this`wiped
      ensures Now() == Run(old(Now()), UpdateSteps(t, fault))
      ensures |threads| == |old(threads)| && threads[t].stage.Renamed? && threads[t].lock == old(threads[t].lock)
      ensures files == old(files)[path := Whole(ReadRecords(old(files), path, fault) + [record])]
    {
      RunUpdate(Now(), t, fault);
      var existing := ReadArtefact(t, path, fault);
      WriteTemp(t, path, existing + [record]);
      Replace(t, path);
    }

    /** Getting the lock and entering the `with` block. */
    method Enter(t: nat, path: Path, record: Record) returns (lock: Lock)
      requires t < |threads| && threads[t].stage.Idle? && LockFree(Now(), path)
      modifies this`registry, this`nextLock, this`held, this`threads
      ensures Now() == Run(old(Now()), EnterSteps(t, path, record))
      ensures |threads| == |old(threads)| && threads[t] == Thread(Locked, path, record, lock, [])
      ensures lock !in old(held) && held == old(held)[lock := t]
    {
      RunEnter(Now(), t, path, record);
      lock := LockFor(path);
      threads := threads[t := Thread(Waiting, path, record, lock, [])];
      held := held[lock := t];
      threads := threads[t := threads[t].(stage := Locked)];
    }

    method ReadArtefact(ghost t: nat, path: Path, fault: bool) returns (existing: seq<Record>)
      requires t < |threads| && threads[t].stage.Locked? && threads[t].path == path
      modifies this`threads
      ensures Now() == Apply(old(Now()), Read(t, fault))
      ensures existing == ReadRecords(files, path, fault)
      ensures |threads| == |old(threads)| && threads[t] == old(threads[t]).(stage := Loaded, existing := existing)
    {
      existing := ReadRecords(files, path, fault);
      threads := threads[t := threads[t].(stage := Loaded, existing := existing)];
    }

    /** Opening the temporary file truncates it; it is whole when it is closed. */
    method WriteTemp(ghost t: nat, path: Path, records: seq<Record>)
      requires t < |threads| && threads[t].stage.Loaded? && threads[t].path == path
      requires records == threads[t].existing + [threads[t].record]
      modifies this`temps, this`threads
      ensures Now() == Apply(Apply(old(Now()), OpenTemp(t)), FinishTemp(t))
      ensures |threads| == |old(threads)| && threads[t] == old(threads[t]).(stage := Written)
      ensures path in temps && temps[path] == Whole(records)
    {
      temps := temps[path := Torn];
      threads := threads[t := threads[t].(stage := Writing)];
      temps := temps[path := Whole(records)];
      threads := threads[t := threads[t].(stage := Written)];
    }

    /** `os.replace`. */
    method Replace(ghost t: nat, path: Path)
      requires t < |threads| && threads[t].stage.Written? && threads[t].path == path && path in temps
      modifies this`files, this`temps, this`threads, this`committed, this`wiped
      ensures Now() == Apply(old(Now()), Rename(t))
      ensures |threads| == |old(threads)| && threads[t] == old(threads[t]).(stage := Renamed)
      ensures files == old(files)[path := old(temps)[path]]
    {
      ghost var before := Now();
      wiped := if threads[t].existing == Contents(files, path) then wiped else wiped + {path};
      committed := committed[path := LogOf(before, path) + [threads[t].record]];
      files := files[path := temps[path]];
      temps := temps - {path};
      threads := threads[t := threads[t].(stage := Renamed)];
    }

    /** Leaving the `with` block. */
    method Leave(ghost t: nat, lock: Lock)
      requires t < |threads| && threads[t].stage.Renamed? && threads[t].lock == lock
      modifies this`held, this`threads
      ensures Now() == Run(old(Now()), [Release(t)])
      ensures held == old(held) - {lock}
    {
      RunOne(Now(), Release(t));
      held := held - {lock};
      threads := threads[t := threads[t].(stage := Idle)];
    }
  }
}
