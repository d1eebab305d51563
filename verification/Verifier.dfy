/**
 The confirmation state machine of src/event_intelligence/verifier.py.

 `Core` is the verifier's state as a value, together with two ghost logs: every record
 handed to the output queue (`trace`) and every admission to the pending map (`admitted`).
 `DrainAll` and `TickAll` are one pass of the run loop; `Run` is any number of passes.
 The class `Verifier` is the code itself, proved to do exactly what these functions say.
 */
module ConfirmationMachine {
  import opened Containers
  import DropOldest

  type Id = string

  // ---------------------------------------------------------------- records

  datatype Source = TrueData | NseOfficial | BseOfficial

  /** `tokens` are the upper-cased headline words longer than two characters; `normCategory`
      is the category after `_normalise_filing_category`, "" standing for none. */
  datatype RawEvent = RawEvent(id: Id, symbol: string, tokens: set<string>,
                               category: string, normCategory: string, source: Source)

  datatype Filing = Filing(symbol: string, tokens: set<string>,
                           category: string, normCategory: string, filingId: string)

  datatype State = AwaitingConfirm | LiveUnconfirmed | Confirmed | Conflict | ExpiredNoConfirm

  /** Where the official fields of a verified event come from. */
  datatype Evidence = NoEvidence | Matched(filing: Filing) | OwnFiling

  datatype VerifiedEvent = VerifiedEvent(raw: RawEvent, state: State, confidence: real, evidence: Evidence)

  datatype Config = Config(pollInitial: real, pollFollowup: real, timeout: real)

  // ---------------------------------------------------------------- phases

  datatype Phase = PreMarket | Intraday | LateSession | AfterHours

  /** The trading phase at a second of the IST day. */
  function PhaseAt(secondOfDay: nat): Phase {
    if 12600 <= secondOfDay < 33300 then PreMarket
    else if 33300 <= secondOfDay < 52200 then Intraday
    else if 52200 <= secondOfDay < 55800 then LateSession
    else AfterHours
  }

  /** Policy B: wait for the exchange. Otherwise policy C: emit at once and go on verifying. */
  predicate Blocking(p: Phase) {
    p == PreMarket || p == AfterHours
  }

  // ---------------------------------------------------------------- matching

  /** Share of common words. */
  function Similarity(a: set<string>, b: set<string>): real {
    if a == {} || b == {} then 0.0
    else |a * b| as real / (if |a + b| > 1 then |a + b| else 1) as real
  }

  function Score(raw: RawEvent, f: Filing): real {
    Similarity(raw.tokens, f.tokens)
  }

  /** The running best of the matching loop after all of `candidates`. */
  function BestAmong(raw: RawEvent, candidates: seq<Filing>): (Option<Filing>, real) {
    if candidates == [] then (None, 0.0)
    else
      var last := candidates[|candidates| - 1];
      var (best, score) := BestAmong(raw, candidates[..|candidates| - 1]);
      if last.symbol == raw.symbol && Score(raw, last) > score
      then (Some(last), Score(raw, last))
      else (best, score)
  }

  /** The official filing a raw event is matched to. */
  function OfficialMatch(raw: RawEvent, candidates: seq<Filing>): Option<Filing> {
    var (best, score) := BestAmong(raw, candidates);
    if score >= 0.3 then best else None
  }

  ghost predicate Eligible(raw: RawEvent, f: Filing) {
    f.symbol == raw.symbol && Score(raw, f) >= 0.3
  }

  /** `candidates[i]` scores at least as high as every filing of the symbol, higher than earlier ones. */
  ghost predicate FirstBest(raw: RawEvent, candidates: seq<Filing>, i: nat) {
    && i < |candidates|
    && candidates[i].symbol == raw.symbol
    && (forall j | 0 <= j < |candidates| && candidates[j].symbol == raw.symbol ::
          Score(raw, candidates[j]) <= Score(raw, candidates[i]))
    && (forall j | 0 <= j < i && candidates[j].symbol == raw.symbol ::
          Score(raw, candidates[j]) < Score(raw, candidates[i]))
  }

  /** `best` and `score` are what a scan of `candidates` should have found. */
  ghost predicate Found(raw: RawEvent, candidates: seq<Filing>, best: Option<Filing>, score: real) {
    match best
    case None =>
      score == 0.0 && forall j | 0 <= j < |candidates| && candidates[j].symbol == raw.symbol ::
        Score(raw, candidates[j]) <= 0.0
    case Some(f) =>
      score > 0.0 && Score(raw, f) == score
      && exists i: nat :: FirstBest(raw, candidates, i) && candidates[i] == f
  }

  lemma FoundSnoc(raw: RawEvent, front: seq<Filing>, last: Filing, best: Option<Filing>, score: real)
    requires Found(raw, front, best, score)
    ensures var better := last.symbol == raw.symbol && Score(raw, last) > score;
            Found(raw, front + [last], if better then Some(last) else best,
                  if better then Score(raw, last) else score)
  {
    var all := front + [last];
    assert forall j | 0 <= j < |front| :: all[j] == front[j];
    if last.symbol == raw.symbol && Score(raw, last) > score {
      assert forall j | 0 <= j < |front| && all[j].symbol == raw.symbol :: Score(raw, front[j]) <= score;
      assert FirstBest(raw, all, |front|);
    } else if best.Some? {
      var i: nat :| FirstBest(raw, front, i) && front[i] == best.value;
      assert FirstBest(raw, all, i);
    }
  }

  lemma {:induction false} BestAmongFound(raw: RawEvent, candidates: seq<Filing>)
    ensures Found(raw, candidates, BestAmong(raw, candidates).0, BestAmong(raw, candidates).1)
  {
    if candidates != [] {
      var n := |candidates| - 1;
      var (best, score) := BestAmong(raw, candidates[..n]);
      BestAmongFound(raw, candidates[..n]);
      FoundSnoc(raw, candidates[..n], candidates[n], best, score);
      assert candidates[..n] + [candidates[n]] == candidates;
    }
  }

  /** A match is found exactly when some filing of the symbol shares at least 30% of the words,
      and it is then the earliest of those that share the most. */
  lemma OfficialMatchIsFirstBest(raw: RawEvent, candidates: seq<Filing>)
    ensures OfficialMatch(raw, candidates).Some? <==>
            exists j | 0 <= j < |candidates| :: Eligible(raw, candidates[j])
    ensures var m := OfficialMatch(raw, candidates);
            m.Some? ==> Eligible(raw, m.value)
                        && exists i: nat :: FirstBest(raw, candidates, i) && candidates[i] == m.value
  {
    BestAmongFound(raw, candidates);
    var (best, score) := BestAmong(raw, candidates);
    if best.Some? {
      var i: nat :| FirstBest(raw, candidates, i) && candidates[i] == best.value;
      if score >= 0.3 {
        assert Eligible(raw, candidates[i]);
      }
    }
  }

  predicate Conflicts(raw: RawEvent, official: Filing) {
    && raw.category != "" && official.category != ""
    && raw.normCategory != "" && official.normCategory != ""
    && raw.normCategory != official.normCategory
  }

  function Resolve(raw: RawEvent, candidates: seq<Filing>, initial: State): VerifiedEvent {
    match OfficialMatch(raw, candidates)
    case None =>
      if initial == AwaitingConfirm then VerifiedEvent(raw, AwaitingConfirm, 0.0, NoEvidence)
      else VerifiedEvent(raw, LiveUnconfirmed, 0.7, NoEvidence)
    case Some(f) =>
      if Conflicts(raw, f) then VerifiedEvent(raw, Conflict, 0.5, Matched(f))
      else VerifiedEvent(raw, Confirmed, 1.0, Matched(f))
  }

  // ---------------------------------------------------------------- state

  /** Who emitted a record: the provisional emission at arrival, the pending path, or the
      official short-circuit. */
  datatype Kind = Provisional | Terminal | Official

  datatype Emission = Emission(ve: VerifiedEvent, kind: Kind)

  datatype Core = Core(pending: Dict<Id, real>, nextPoll: map<Id, real>, raws: map<Id, RawEvent>,
                       partial: set<Id>, trace: seq<Emission>, admitted: seq<Id>)

  function Init(): Core {
    Core(EmptyDict(), map[], map[], {}, [], [])
  }

  /** A wall-clock reading: epoch seconds and second of the IST day. */
  datatype Reading = Reading(now: real, secondOfDay: nat)

  /** What one pass over the pending events reads from outside: the time of the pass, and for
      each polled id the answer of the filings service (None: it raised) and the time of day. */
  datatype TickInput = TickInput(now: real, fetch: Id -> Option<seq<Filing>>, secondOfDay: Id -> nat)

  function Emitted(s: Core, ve: VerifiedEvent, kind: Kind): Core {
    s.(trace := s.trace + [Emission(ve, kind)])
  }

  function Admit(s: Core, raw: RawEvent, now: real): (r: Core)
    requires s.pending.Valid()
    ensures r.pending.Valid()
  {
    s.(pending := s.pending.Put(raw.id, now), raws := s.raws[raw.id := raw],
       nextPoll := s.nextPoll[raw.id := now], admitted := s.admitted + [raw.id])
  }

  /** Emit with `partial=True`: nothing happens when the id has had its provisional. */
  function Announce(s: Core, raw: RawEvent): Core {
    if raw.id in s.partial then s
    else Emitted(s.(partial := s.partial + {raw.id}),
                 VerifiedEvent(raw, LiveUnconfirmed, 0.7, NoEvidence), Provisional)
  }

  function DrainOne(s: Core, raw: RawEvent, at: Reading): (r: Core)
    requires s.pending.Valid()
    ensures r.pending.Valid()
  {
    if raw.source != TrueData then
      Emitted(s, VerifiedEvent(raw, Confirmed, 1.0, OwnFiling), Official)
    else if raw.id in s.pending.vals then s
    else
      var admitted := Admit(s, raw, at.now);
      if Blocking(PhaseAt(at.secondOfDay)) then admitted else Announce(admitted, raw)
  }

  function DrainAll(s: Core, batch: seq<(RawEvent, Reading)>): (r: Core)
    requires s.pending.Valid()
    ensures r.pending.Valid()
    decreases |batch|
  {
    if batch == [] then s
    else DrainAll(DrainOne(s, batch[0].0, batch[0].1), batch[1..])
  }

  function Dropped(s: Core, id: Id): Core
    requires s.pending.Valid()
  {
    s.(pending := s.pending.Remove(id), nextPoll := s.nextPoll - {id})
  }

  /** A terminal emission for a pending id, which then leaves the pending map. */
  function Settled(s: Core, ve: VerifiedEvent, id: Id): (r: Core)
    requires s.pending.Valid()
    ensures r.pending.Valid()
  {
    Dropped(Emitted(s, ve, Terminal), id)
  }

  function DueAt(s: Core, id: Id): real {
    if id in s.nextPoll then s.nextPoll[id] else 0.0
  }

  function Expiry(s: Core, raw: RawEvent, id: Id): VerifiedEvent {
    VerifiedEvent(raw, ExpiredNoConfirm, if id in s.partial then 0.5 else 0.0, NoEvidence)
  }

  function Cadence(cfg: Config, elapsed: real): real {
    if elapsed < 300.0 then cfg.pollInitial else cfg.pollFollowup
  }

  function Polled(raw: RawEvent, id: Id, t: TickInput): VerifiedEvent {
    var answer := t.fetch(id);
    Resolve(raw, if answer.Some? then answer.value else [],
            if Blocking(PhaseAt(t.secondOfDay(id))) then AwaitingConfirm else LiveUnconfirmed)
  }

  function TickOne(cfg: Config, s: Core, id: Id, t: TickInput): (r: Core)
    requires s.pending.Valid()
    ensures r.pending.Valid()
  {
    if id !in s.pending.vals || t.now < DueAt(s, id) then s
    else if id !in s.raws then Dropped(s, id)
    else
      var raw := s.raws[id];
      var elapsed := t.now - s.pending.vals[id];
      if elapsed >= cfg.timeout then
        Settled(s, Expiry(s, raw, id), id)
      else
        var resolved := Polled(raw, id, t);
        if resolved.state == Confirmed || resolved.state == Conflict then
          Settled(s, resolved, id)
        else
          s.(nextPoll := s.nextPoll[id := t.now + Cadence(cfg, elapsed)])
  }

  function TickAll(cfg: Config, s: Core, ids: seq<Id>, t: TickInput): (r: Core)
    requires s.pending.Valid()
    ensures r.pending.Valid()
    decreases |ids|
  {
    if ids == [] then s
    else TickAll(cfg, TickOne(cfg, s, ids[0], t), ids[1..], t)
  }

  /** One pass of the run loop's two halves, or a stop and restart of the loop, which begins
      again with an empty next-poll map. */
  datatype Step =
    | Drain(batch: seq<(RawEvent, Reading)>)
    | Tick(input: TickInput)
    | LoopRestart

  function Next(cfg: Config, s: Core, step: Step): (r: Core)
    requires s.pending.Valid()
    ensures r.pending.Valid()
  {
    match step
    case Drain(batch) => DrainAll(s, batch)
    case Tick(input) => TickAll(cfg, s, s.pending.keys, input)
    case LoopRestart => s.(nextPoll := map[])
  }

  function Run(cfg: Config, s: Core, steps: seq<Step>): (r: Core)
    requires s.pending.Valid()
    ensures r.pending.Valid()
    decreases |steps|
  {
    if steps == [] then s else Run(cfg, Next(cfg, s, steps[0]), steps[1..])
  }

  // ---------------------------------------------------------------- the invariant

  /** What one id has emitted outside the official short-circuit, in order. */
  ghost function History(trace: seq<Emission>, id: Id): seq<Kind> {
    if trace == [] then []
    else
      var e := trace[|trace| - 1];
      History(trace[..|trace| - 1], id)
      + (if e.kind != Official && e.ve.raw.id == id then [e.kind] else [])
  }

  lemma HistorySnoc(trace: seq<Emission>, e: Emission, id: Id)
    ensures History(trace + [e], id)
         == History(trace, id) + (if e.kind != Official && e.ve.raw.id == id then [e.kind] else [])
  {
    assert (trace + [e])[..|trace|] == trace;
  }

  ghost function Terminals(s: Core, id: Id): nat {
    multiset(History(s.trace, id))[Terminal]
  }

  ghost function Admissions(s: Core, id: Id): nat {
    multiset(s.admitted)[id]
  }

  /** The account of one id with history `h`: every admission has ended in one terminal
      emission or is still pending; at most one provisional was ever emitted, and the emission
      that follows it is its terminal. */
  ghost predicate Balanced(h: seq<Kind>, pending: bool, partial: bool, admissions: nat) {
    && multiset(h)[Terminal] + (if pending then 1 else 0) == admissions
    && multiset(h)[Provisional] == (if partial then 1 else 0)
    && (forall i, j | 0 <= i < j < |h| && j == i + 1 && h[i] == Provisional :: h[j] == Terminal)
    && (h != [] && h[|h| - 1] == Provisional ==> pending)
  }

  ghost predicate Ledger(s: Core, id: Id) {
    Balanced(History(s.trace, id), id in s.pending.vals, id in s.partial, multiset(s.admitted)[id])
  }

  lemma BalancedTerminal(h: seq<Kind>, partial: bool, admissions: nat)
    requires Balanced(h, true, partial, admissions)
    ensures Balanced(h + [Terminal], false, partial, admissions)
  {
  }

  lemma BalancedProvisional(h: seq<Kind>, admissions: nat)
    requires Balanced(h, true, false, admissions)
    ensures Balanced(h + [Provisional], true, true, admissions)
  {
    assert Provisional in multiset(h) <==> Provisional in h;
  }

  /** The i-th emission has a state, a confidence and evidence that fit together. */
  ghost predicate Sound(trace: seq<Emission>, i: nat)
    requires i < |trace|
  {
    var ve := trace[i].ve;
    match trace[i].kind
    case Provisional =>
      ve.raw.source == TrueData && ve.state == LiveUnconfirmed && ve.confidence == 0.7
    case Official =>
      ve.raw.source != TrueData && ve.state == Confirmed && ve.confidence == 1.0 && ve.evidence == OwnFiling
    case Terminal =>
      && ve.raw.source == TrueData
      && match ve.state
         case Confirmed =>
           ve.confidence == 1.0 && ve.evidence.Matched?
           && Eligible(ve.raw, ve.evidence.filing) && !Conflicts(ve.raw, ve.evidence.filing)
         case Conflict =>
           ve.confidence == 0.5 && ve.evidence.Matched?
           && Eligible(ve.raw, ve.evidence.filing) && Conflicts(ve.raw, ve.evidence.filing)
         case ExpiredNoConfirm =>
           ve.evidence == NoEvidence
           && ve.confidence == if Provisional in History(trace[..i], ve.raw.id) then 0.5 else 0.0
         case _ => false
  }

  ghost predicate AllSound(trace: seq<Emission>) {
    forall i: nat | i < |trace| :: Sound(trace, i)
  }

  ghost predicate Inv(s: Core) {
    && s.pending.Valid()
    && s.nextPoll.Keys <= s.pending.vals.Keys <= s.raws.Keys
    && (forall id <- s.raws :: s.raws[id].id == id && s.raws[id].source == TrueData)
    && (forall id :: Ledger(s, id))
    && AllSound(s.trace)
  }

  lemma SoundSnoc(trace: seq<Emission>, e: Emission)
    requires AllSound(trace)
    requires Sound(trace + [e], |trace|)
    ensures AllSound(trace + [e])
  {
    forall i: nat | i < |trace| ensures Sound(trace + [e], i) {
      assert Sound(trace, i);
      assert (trace + [e])[..i] == trace[..i];
    }
  }

  lemma PartialMeansProvisional(s: Core, id: Id)
    requires Ledger(s, id)
    ensures id in s.partial <==> Provisional in History(s.trace, id)
  {
    var h := History(s.trace, id);
    assert Provisional in multiset(h) <==> Provisional in h;
  }

  lemma OfficialKeepsInv(s: Core, raw: RawEvent)
    requires Inv(s) && raw.source != TrueData
    ensures Inv(Emitted(s, VerifiedEvent(raw, Confirmed, 1.0, OwnFiling), Official))
  {
    var e := Emission(VerifiedEvent(raw, Confirmed, 1.0, OwnFiling), Official);
    SoundSnoc(s.trace, e);
    forall id ensures Ledger(s.(trace := s.trace + [e]), id) {
      assert Ledger(s, id);
      HistorySnoc(s.trace, e, id);
    }
  }

  lemma AdmitKeepsInv(s: Core, raw: RawEvent, now: real)
    requires Inv(s) && raw.source == TrueData && raw.id !in s.pending.vals
    ensures Inv(Admit(s, raw, now))
  {
    forall id ensures Ledger(Admit(s, raw, now), id) {
      assert Ledger(s, id);
    }
  }

  lemma AnnounceKeepsInv(s: Core, raw: RawEvent)
    requires Inv(s) && raw.source == TrueData && raw.id in s.pending.vals
    ensures Inv(Announce(s, raw))
  {
    if raw.id !in s.partial {
      var e := Emission(VerifiedEvent(raw, LiveUnconfirmed, 0.7, NoEvidence), Provisional);
      SoundSnoc(s.trace, e);
      forall id ensures Ledger(Announce(s, raw), id) {
        AnnounceLedger(s, raw, e, id);
      }
    }
  }

  lemma AnnounceLedger(s: Core, raw: RawEvent, e: Emission, id: Id)
    requires Ledger(s, id) && raw.id in s.pending.vals && raw.id !in s.partial
    requires e.kind == Provisional && e.ve.raw == raw && Announce(s, raw).trace == s.trace + [e]
    ensures Ledger(Announce(s, raw), id)
  {
    var r, h := Announce(s, raw), History(s.trace, id);
    HistorySnoc(s.trace, e, id);
    assert r.pending == s.pending && r.admitted == s.admitted && r.partial == s.partial + {raw.id};
    if id == raw.id {
      assert History(r.trace, id) == h + [Provisional];
      BalancedProvisional(h, multiset(s.admitted)[id]);
    } else {
      assert History(r.trace, id) == h;
    }
  }

  lemma DrainOneKeepsInv(s: Core, raw: RawEvent, at: Reading)
    requires Inv(s)
    ensures Inv(DrainOne(s, raw, at))
  {
    if raw.source != TrueData {
      OfficialKeepsInv(s, raw);
    } else if raw.id !in s.pending.vals {
      AdmitKeepsInv(s, raw, at.now);
      AnnounceKeepsInv(Admit(s, raw, at.now), raw);
    }
  }

  lemma {:induction false} DrainAllKeepsInv(s: Core, batch: seq<(RawEvent, Reading)>)
    requires Inv(s)
    ensures Inv(DrainAll(s, batch))
    decreases |batch|
  {
    if batch != [] {
      DrainOneKeepsInv(s, batch[0].0, batch[0].1);
      DrainAllKeepsInv(DrainOne(s, batch[0].0, batch[0].1), batch[1..]);
    }
  }

  lemma SettledKeepsInv(s: Core, ve: VerifiedEvent, id: Id)
    requires Inv(s) && id in s.pending.vals && ve.raw == s.raws[id]
    requires Sound(s.trace + [Emission(ve, Terminal)], |s.trace|)
    ensures Inv(Settled(s, ve, id))
  {
    var e := Emission(ve, Terminal);
    SoundSnoc(s.trace, e);
    forall x ensures Ledger(Settled(s, ve, id), x) {
      assert Ledger(s, x);
      SettledLedger(s, ve, id, x);
    }
  }

  lemma SettledLedger(s: Core, ve: VerifiedEvent, id: Id, x: Id)
    requires s.pending.Valid() && Ledger(s, x) && id in s.pending.vals && ve.raw.id == id
    ensures Ledger(Settled(s, ve, id), x)
  {
    var r, h := Settled(s, ve, id), History(s.trace, x);
    HistorySnoc(s.trace, Emission(ve, Terminal), x);
    assert r.admitted == s.admitted && r.partial == s.partial && r.pending.vals == s.pending.vals - {id};
    if x == id {
      assert History(r.trace, x) == h + [Terminal];
      BalancedTerminal(h, id in s.partial, multiset(s.admitted)[id]);
    } else {
      assert History(r.trace, x) == h;
    }
  }

  lemma ExpirySound(s: Core, id: Id)
    requires Inv(s) && id in s.raws
    ensures Sound(s.trace + [Emission(Expiry(s, s.raws[id], id), Terminal)], |s.trace|)
  {
    assert Ledger(s, id);
    PartialMeansProvisional(s, id);
    assert (s.trace + [Emission(Expiry(s, s.raws[id], id), Terminal)])[..|s.trace|] == s.trace;
  }

  lemma PolledSound(trace: seq<Emission>, raw: RawEvent, id: Id, t: TickInput)
    requires raw.source == TrueData
    requires Polled(raw, id, t).state == Confirmed || Polled(raw, id, t).state == Conflict
    ensures Sound(trace + [Emission(Polled(raw, id, t), Terminal)], |trace|)
  {
    var answer := t.fetch(id);
    OfficialMatchIsFirstBest(raw, if answer.Some? then answer.value else []);
  }

  lemma ExpiredKeepsInv(s: Core, id: Id)
    requires Inv(s) && id in s.pending.vals
    ensures Inv(Settled(s, Expiry(s, s.raws[id], id), id))
  {
    ExpirySound(s, id);
    SettledKeepsInv(s, Expiry(s, s.raws[id], id), id);
  }

  lemma ResolvedKeepsInv(s: Core, id: Id, t: TickInput)
    requires Inv(s) && id in s.pending.vals
    requires Polled(s.raws[id], id, t).state == Confirmed || Polled(s.raws[id], id, t).state == Conflict
    ensures Inv(Settled(s, Polled(s.raws[id], id, t), id))
  {
    PolledSound(s.trace, s.raws[id], id, t);
    SettledKeepsInv(s, Polled(s.raws[id], id, t), id);
  }

  lemma RescheduledKeepsInv(s: Core, id: Id, at: real)
    requires Inv(s) && id in s.pending.vals
    ensures Inv(s.(nextPoll := s.nextPoll[id := at]))
  {
    var r := s.(nextPoll := s.nextPoll[id := at]);
    forall x ensures Ledger(r, x) {
      assert Ledger(s, x);
    }
  }

  lemma TickOneKeepsInv(cfg: Config, s: Core, id: Id, t: TickInput)
    requires Inv(s)
    ensures Inv(TickOne(cfg, s, id, t))
  {
    if id in s.pending.vals && t.now >= DueAt(s, id) {
      var raw := s.raws[id];
      var elapsed := t.now - s.pending.vals[id];
      var resolved := Polled(raw, id, t);
      if elapsed >= cfg.timeout {
        ExpiredKeepsInv(s, id);
        assert TickOne(cfg, s, id, t) == Settled(s, Expiry(s, raw, id), id);
      } else if resolved.state == Confirmed || resolved.state == Conflict {
        ResolvedKeepsInv(s, id, t);
        assert TickOne(cfg, s, id, t) == Settled(s, resolved, id);
      } else {
        RescheduledKeepsInv(s, id, t.now + Cadence(cfg, elapsed));
      }
    }
  }

  lemma {:induction false} TickAllKeepsInv(cfg: Config, s: Core, ids: seq<Id>, t: TickInput)
    requires Inv(s)
    ensures Inv(TickAll(cfg, s, ids, t))
    decreases |ids|
  {
    if ids != [] {
      TickOneKeepsInv(cfg, s, ids[0], t);
      TickAllKeepsInv(cfg, TickOne(cfg, s, ids[0], t), ids[1..], t);
    }
  }

  lemma NextKeepsInv(cfg: Config, s: Core, step: Step)
    requires Inv(s)
    ensures Inv(Next(cfg, s, step))
  {
    match step
    case Drain(batch) => DrainAllKeepsInv(s, batch);
    case Tick(input) => TickAllKeepsInv(cfg, s, s.pending.keys, input);
    case LoopRestart => forall id ensures Ledger(Next(cfg, s, step), id) { assert Ledger(s, id); }
  }

  lemma {:induction false} RunKeepsInv(cfg: Config, s: Core, steps: seq<Step>)
    requires Inv(s)
    ensures Inv(Run(cfg, s, steps))
    decreases |steps|
  {
    if steps != [] {
      NextKeepsInv(cfg, s, steps[0]);
      RunKeepsInv(cfg, Next(cfg, s, steps[0]), steps[1..]);
    }
  }

  // ---------------------------------------------------------------- every run

  /** In every run, from the start and with any restarts of the loop: the maps nest, so a pending
      event always has its raw record; every id's account balances; every emission is sound. */
  lemma EveryRunKeepsInv(cfg: Config, steps: seq<Step>)
    ensures Inv(Run(cfg, Init(), steps))
  {
    assert Inv(Init());
    RunKeepsInv(cfg, Init(), steps);
  }

  /** Terminal emissions plus one if still pending equals admissions; one provisional at most. */
  lemma EveryRunBalances(cfg: Config, steps: seq<Step>, id: Id)
    ensures var s := Run(cfg, Init(), steps);
            && Terminals(s, id) + (if id in s.pending.vals then 1 else 0) == Admissions(s, id)
            && multiset(History(s.trace, id))[Provisional] <= 1
  {
    EveryRunKeepsInv(cfg, steps);
    assert Ledger(Run(cfg, Init(), steps), id);
  }

  /** An id admitted once has emitted nothing or a provisional while it is pending, and a
      terminal, with or without a provisional before it, when it no longer is. */
  lemma AdmittedOnceShapes(cfg: Config, steps: seq<Step>, id: Id)
    requires Admissions(Run(cfg, Init(), steps), id) == 1
    ensures var s := Run(cfg, Init(), steps);
            var h := History(s.trace, id);
            if id in s.pending.vals then h == [] || h == [Provisional]
            else h == [Terminal] || h == [Provisional, Terminal]
  {
    EveryRunKeepsInv(cfg, steps);
    var s := Run(cfg, Init(), steps);
    assert Ledger(s, id);
    HistoryKinds(s.trace, id);
    BalancedShapes(History(s.trace, id), id in s.pending.vals, id in s.partial);
  }

  lemma BalancedShapes(h: seq<Kind>, pending: bool, partial: bool)
    requires Balanced(h, pending, partial, 1) && Official !in h
    ensures if pending then h == [] || h == [Provisional] else h == [Terminal] || h == [Provisional, Terminal]
  {
    CountKinds(h);
    if |h| == 2 {
      assert h == [h[0], h[1]];
    } else if |h| == 1 {
      assert h == [h[0]];
    }
  }

  lemma {:induction false} HistoryKinds(trace: seq<Emission>, id: Id)
    ensures Official !in History(trace, id)
  {
    if trace != [] {
      HistoryKinds(trace[..|trace| - 1], id);
    }
  }

  lemma {:induction false} CountKinds(h: seq<Kind>)
    requires Official !in h
    ensures |h| == multiset(h)[Provisional] + multiset(h)[Terminal]
  {
    if h != [] {
      var n := |h| - 1;
      assert h == h[..n] + [h[n]];
      assert multiset(h) == multiset(h[..n]) + multiset{h[n]};
      assert forall i | 0 <= i < n :: h[..n][i] in h;
      CountKinds(h[..n]);
      assert h[n] in h && (h[n] == Provisional || h[n] == Terminal);
    }
  }

  /** Pending ids without a next poll; such an id counts as due at time 0. */
  function Unscheduled(s: Core): set<Id> {
    s.pending.vals.Keys - s.nextPoll.Keys
  }

  lemma DomainsEqualIff(s: Core)
    requires s.nextPoll.Keys <= s.pending.vals.Keys
    ensures s.nextPoll.Keys == s.pending.vals.Keys <==> Unscheduled(s) == {}
  {
    if Unscheduled(s) == {} {
      forall id | id in s.pending.vals ensures id in s.nextPoll {
        assert id !in Unscheduled(s);
      }
    }
  }

  lemma {:induction false} DrainKeepsUnscheduled(s: Core, batch: seq<(RawEvent, Reading)>)
    requires s.pending.Valid()
    ensures Unscheduled(DrainAll(s, batch)) == Unscheduled(s)
    decreases |batch|
  {
    if batch != [] {
      var r := DrainOne(s, batch[0].0, batch[0].1);
      assert Unscheduled(r) == Unscheduled(s);
      DrainKeepsUnscheduled(r, batch[1..]);
    }
  }

  lemma TickOneSchedules(cfg: Config, s: Core, id: Id, t: TickInput)
    requires s.pending.Valid()
    ensures Unscheduled(TickOne(cfg, s, id, t)) == if t.now >= 0.0 then Unscheduled(s) - {id} else Unscheduled(s)
  {
    if id in s.pending.vals && t.now >= DueAt(s, id) {
      TouchedIsScheduled(cfg, s, id, t);
      assert id in Unscheduled(s) ==> t.now >= 0.0;
    } else {
      assert id in Unscheduled(s) ==> t.now < 0.0;
    }
    assert id !in Unscheduled(s) ==> Unscheduled(s) - {id} == Unscheduled(s);
  }

  lemma TouchedIsScheduled(cfg: Config, s: Core, id: Id, t: TickInput)
    requires s.pending.Valid() && id in s.pending.vals && t.now >= DueAt(s, id)
    ensures Unscheduled(TickOne(cfg, s, id, t)) == Unscheduled(s) - {id}
  {
    var r := TickOne(cfg, s, id, t);
    if r.pending == s.pending {
      assert r.nextPoll.Keys == s.nextPoll.Keys + {id};
    } else {
      assert r.pending.vals == s.pending.vals - {id} && r.nextPoll == s.nextPoll - {id};
    }
  }

  lemma HeadAndRest(ids: seq<Id>)
    requires ids != []
    ensures (set id | id in ids) == {ids[0]} + set id | id in ids[1..]
  {
    assert ids == [ids[0]] + ids[1..];
  }

  /** A pass leaves an id without a next poll only if it does not come to it, or before time 0. */
  lemma {:induction false} TickSchedules(cfg: Config, s: Core, ids: seq<Id>, t: TickInput)
    requires s.pending.Valid()
    ensures Unscheduled(TickAll(cfg, s, ids, t))
         == if t.now >= 0.0 then Unscheduled(s) - (set id | id in ids) else Unscheduled(s)
    decreases |ids|
  {
    if ids != [] {
      TickOneSchedules(cfg, s, ids[0], t);
      TickSchedules(cfg, TickOne(cfg, s, ids[0], t), ids[1..], t);
      HeadAndRest(ids);
    }
  }

  /** What one step does to the ids without a next poll. */
  lemma NextUnscheduled(cfg: Config, s: Core, step: Step)
    requires s.pending.Valid()
    ensures var r := Next(cfg, s, step);
            match step
            case LoopRestart => Unscheduled(r) == s.pending.vals.Keys
            case Tick(t) => Unscheduled(r) == if t.now >= 0.0 then {} else Unscheduled(s)
            case Drain(_) => Unscheduled(r) == Unscheduled(s)
  {
    match step
    case LoopRestart =>
    case Tick(t) =>
      TickSchedules(cfg, s, s.pending.keys, t);
      assert Unscheduled(s) - (set id | id in s.pending.keys) == {};
    case Drain(batch) => DrainKeepsUnscheduled(s, batch);
  }

  /** Right after a restart of the loop the two maps have the same domain exactly when nothing is
      pending. */
  lemma RestartDomains(cfg: Config, steps: seq<Step>)
    ensures var s := Next(cfg, Run(cfg, Init(), steps), LoopRestart);
            s.nextPoll.Keys == s.pending.vals.Keys <==> s.pending.vals == map[]
  {
    EveryRunKeepsInv(cfg, steps);
    var s := Next(cfg, Run(cfg, Init(), steps), LoopRestart);
    if s.pending.vals.Keys == {} {
      assert s.pending.vals == map[];
    }
  }

  predicate Schedules(step: Step) {
    step.Tick? && step.input.now >= 0.0
  }

  /** The i-th step restarts the loop while something is pending, and no pass has been made since. */
  ghost predicate RestartedAt(cfg: Config, steps: seq<Step>, i: int)
    requires 0 <= i < |steps|
  {
    && steps[i].LoopRestart?
    && Run(cfg, Init(), steps[..i]).pending.vals.Keys != {}
    && forall j | i < j < |steps| :: !Schedules(steps[j])
  }

  lemma {:induction false} RunSnoc(cfg: Config, s: Core, steps: seq<Step>, last: Step)
    requires s.pending.Valid()
    ensures Run(cfg, s, steps + [last]) == Next(cfg, Run(cfg, s, steps), last)
    decreases |steps|
  {
    if steps == [] {
      assert steps + [last] == [last];
      assert [last][1..] == [];
      assert Run(cfg, s, [last]) == Run(cfg, Next(cfg, s, last), []);
    } else {
      assert (steps + [last])[1..] == steps[1..] + [last];
      RunSnoc(cfg, Next(cfg, s, steps[0]), steps[1..], last);
    }
  }

  /** In every run, restarts of the loop included, the pending and next-poll maps have different
      domains exactly while a restart with something pending has had no pass after it. */
  lemma {:induction false} SameDomainsIff(cfg: Config, steps: seq<Step>)
    ensures var s := Run(cfg, Init(), steps);
            s.nextPoll.Keys == s.pending.vals.Keys <==>
            !exists i | 0 <= i < |steps| :: RestartedAt(cfg, steps, i)
    decreases |steps|
  {
    EveryRunKeepsInv(cfg, steps);
    var s := Run(cfg, Init(), steps);
    if steps != [] {
      var n := |steps| - 1;
      var front, last := steps[..n], steps[n];
      var m := Run(cfg, Init(), front);
      assert steps == front + [last];
      RunSnoc(cfg, Init(), front, last);
      EveryRunKeepsInv(cfg, front);
      SameDomainsIff(cfg, front);
      NextUnscheduled(cfg, m, last);
      DomainsEqualIff(m);
      DomainsEqualIff(s);
      RestartedSnoc(cfg, front, last);
    }
  }

  lemma RestartedSnoc(cfg: Config, front: seq<Step>, last: Step)
    ensures var steps := front + [last];
            (exists i | 0 <= i < |steps| :: RestartedAt(cfg, steps, i)) <==>
            || (last.LoopRestart? && Run(cfg, Init(), front).pending.vals.Keys != {})
            || (!Schedules(last) && exists i | 0 <= i < |front| :: RestartedAt(cfg, front, i))
  {
    var steps, n := front + [last], |front|;
    assert steps[..n] == front;
    forall i | 0 <= i < n ensures RestartedAt(cfg, steps, i) <==> RestartedAt(cfg, front, i) && !Schedules(last) {
      assert steps[..i] == front[..i];
      assert forall j | i < j < n :: steps[j] == front[j];
      assert RestartedAt(cfg, steps, i) ==> !Schedules(steps[n]);
    }
    assert RestartedAt(cfg, steps, n) <==> last.LoopRestart? && Run(cfg, Init(), front).pending.vals.Keys != {};
  }

  // ---------------------------------------------------------------- bounded resolution

  function MaxCadence(cfg: Config): real {
    if cfg.pollInitial > cfg.pollFollowup then cfg.pollInitial else cfg.pollFollowup
  }

  /** Every scheduled poll is the one at arrival, or comes before arrival + timeout + cadence. */
  ghost predicate Bounded(cfg: Config, s: Core) {
    forall id <- s.nextPoll ::
      id in s.pending.vals
      && (s.nextPoll[id] == s.pending.vals[id]
          || s.nextPoll[id] < s.pending.vals[id] + cfg.timeout + MaxCadence(cfg))
  }

  lemma {:induction false} DrainKeepsBounded(cfg: Config, s: Core, batch: seq<(RawEvent, Reading)>)
    requires s.pending.Valid() && Bounded(cfg, s)
    ensures Bounded(cfg, DrainAll(s, batch))
    decreases |batch|
  {
    if batch != [] {
      DrainKeepsBounded(cfg, DrainOne(s, batch[0].0, batch[0].1), batch[1..]);
    }
  }

  lemma {:induction false} TickKeepsBounded(cfg: Config, s: Core, ids: seq<Id>, t: TickInput)
    requires s.pending.Valid() && Bounded(cfg, s)
    ensures Bounded(cfg, TickAll(cfg, s, ids, t))
    decreases |ids|
  {
    if ids != [] {
      TickKeepsBounded(cfg, TickOne(cfg, s, ids[0], t), ids[1..], t);
    }
  }

  lemma NextKeepsBounded(cfg: Config, s: Core, step: Step)
    requires s.pending.Valid() && Bounded(cfg, s)
    ensures Bounded(cfg, Next(cfg, s, step))
  {
    match step
    case Drain(batch) => DrainKeepsBounded(cfg, s, batch);
    case Tick(input) => TickKeepsBounded(cfg, s, s.pending.keys, input);
    case LoopRestart =>
  }

  lemma {:induction false} RunKeepsBounded(cfg: Config, s: Core, steps: seq<Step>)
    requires s.pending.Valid() && Bounded(cfg, s)
    ensures Bounded(cfg, Run(cfg, s, steps))
    decreases |steps|
  {
    if steps != [] {
      NextKeepsBounded(cfg, s, steps[0]);
      RunKeepsBounded(cfg, Next(cfg, s, steps[0]), steps[1..]);
    }
  }

  function NonNegative(x: real): real {
    if x < 0.0 then 0.0 else x
  }

  /** The latest moment by which an event that arrived at `arrival` is due and timed out,
      whatever the configured times are. */
  function Deadline(cfg: Config, arrival: real): real {
    arrival + NonNegative(cfg.timeout) + NonNegative(MaxCadence(cfg))
  }

  /** A pass over some ids only shrinks the pending map, and admits nothing. */
  lemma {:induction false} TickOnlyRemoves(cfg: Config, s: Core, ids: seq<Id>, t: TickInput)
    requires s.pending.Valid()
    ensures var r := TickAll(cfg, s, ids, t);
            && r.admitted == s.admitted
            && forall id <- r.pending.vals :: id in s.pending.vals && r.pending.vals[id] == s.pending.vals[id]
    decreases |ids|
  {
    if ids != [] {
      TickOnlyRemoves(cfg, TickOne(cfg, s, ids[0], t), ids[1..], t);
    }
  }

  lemma TickOneRemovesLate(cfg: Config, s: Core, t: TickInput, id: Id)
    requires s.pending.Valid() && Bounded(cfg, s)
    requires id in s.pending.vals ==> t.now >= Deadline(cfg, s.pending.vals[id])
    requires t.now >= 0.0
    ensures id !in TickOne(cfg, s, id, t).pending.vals
  {
  }

  lemma {:induction false} TickRemovesLate(cfg: Config, s: Core, ids: seq<Id>, t: TickInput, id: Id)
    requires Inv(s) && Bounded(cfg, s)
    requires id in ids
    requires id in s.pending.vals ==> t.now >= Deadline(cfg, s.pending.vals[id])
    requires t.now >= 0.0
    ensures id !in TickAll(cfg, s, ids, t).pending.vals
    decreases |ids|
  {
    var s1 := TickOne(cfg, s, ids[0], t);
    if ids[0] == id {
      TickOneRemovesLate(cfg, s, t, id);
      TickOnlyRemoves(cfg, s1, ids[1..], t);
    } else {
      TickOneKeepsInv(cfg, s, ids[0], t);
      TickKeepsBounded(cfg, s, [ids[0]], t);
      assert TickAll(cfg, s, [ids[0]], t) == s1;
      TickRemovesLate(cfg, s1, ids[1..], t, id);
    }
  }

  /** Any pass at or after the deadline of a pending id removes it with exactly one terminal emission. */
  lemma TickSettlesLate(cfg: Config, s: Core, t: TickInput, id: Id)
    requires Inv(s) && Bounded(cfg, s) && id in s.pending.vals
    requires t.now >= Deadline(cfg, s.pending.vals[id]) && t.now >= 0.0
    ensures var r := Next(cfg, s, Tick(t));
            id !in r.pending.vals && Terminals(r, id) == Terminals(s, id) + 1
  {
    TickRemovesLate(cfg, s, s.pending.keys, t, id);
    TickOnlyRemoves(cfg, s, s.pending.keys, t);
    TickAllKeepsInv(cfg, s, s.pending.keys, t);
    assert Ledger(s, id) && Ledger(Next(cfg, s, Tick(t)), id);
  }

  /** No step takes back an emission: terminals never decrease. A pending id stays pending with
      the same arrival, or a step settles it. */
  lemma StepKeepsOrSettles(cfg: Config, s: Core, step: Step, id: Id)
    requires Inv(s)
    ensures var r := Next(cfg, s, step);
            && Terminals(r, id) >= Terminals(s, id)
            && (id in s.pending.vals ==>
                  || (id in r.pending.vals && r.pending.vals[id] == s.pending.vals[id])
                  || Terminals(r, id) > Terminals(s, id))
  {
    NextKeepsInv(cfg, s, step);
    assert Ledger(s, id) && Ledger(Next(cfg, s, step), id);
    match step
    case Drain(batch) => DrainKeepsPending(s, batch, id);
    case Tick(input) => TickOnlyRemoves(cfg, s, s.pending.keys, input);
    case LoopRestart =>
  }

  lemma DrainOneKeepsPending(s: Core, raw: RawEvent, at: Reading, id: Id)
    requires s.pending.Valid()
    ensures var r := DrainOne(s, raw, at);
            && Terminals(r, id) == Terminals(s, id)
            && (id in s.pending.vals ==> id in r.pending.vals && r.pending.vals[id] == s.pending.vals[id])
  {
    var r := DrainOne(s, raw, at);
    if |r.trace| > |s.trace| {
      assert r.trace == s.trace + [r.trace[|s.trace|]];
      HistorySnoc(s.trace, r.trace[|s.trace|], id);
    }
  }

  lemma {:induction false} DrainKeepsPending(s: Core, batch: seq<(RawEvent, Reading)>, id: Id)
    requires s.pending.Valid()
    ensures var r := DrainAll(s, batch);
            && Terminals(r, id) == Terminals(s, id)
            && (id in s.pending.vals ==> id in r.pending.vals && r.pending.vals[id] == s.pending.vals[id])
    decreases |batch|
  {
    if batch != [] {
      DrainOneKeepsPending(s, batch[0].0, batch[0].1, id);
      DrainKeepsPending(DrainOne(s, batch[0].0, batch[0].1), batch[1..], id);
    }
  }

  lemma {:induction false} TerminalsGrow(cfg: Config, s: Core, steps: seq<Step>, id: Id)
    requires Inv(s)
    ensures Terminals(Run(cfg, s, steps), id) >= Terminals(s, id)
    decreases |steps|
  {
    if steps != [] {
      StepKeepsOrSettles(cfg, s, steps[0], id);
      NextKeepsInv(cfg, s, steps[0]);
      TerminalsGrow(cfg, Next(cfg, s, steps[0]), steps[1..], id);
    }
  }

  /** Bounded resolution over runs: an event pending now has its terminal emission in every
      continuation that makes a pass at or after its deadline. */
  lemma {:induction false} SettledByDeadline(cfg: Config, s: Core, steps: seq<Step>, k: nat, id: Id)
    requires Inv(s) && Bounded(cfg, s) && id in s.pending.vals
    requires k < |steps| && steps[k].Tick?
    requires steps[k].input.now >= Deadline(cfg, s.pending.vals[id]) && steps[k].input.now >= 0.0
    ensures Terminals(Run(cfg, s, steps), id) > Terminals(s, id)
    decreases k
  {
    var s1 := Next(cfg, s, steps[0]);
    NextKeepsInv(cfg, s, steps[0]);
    NextKeepsBounded(cfg, s, steps[0]);
    StepKeepsOrSettles(cfg, s, steps[0], id);
    assert Run(cfg, s, steps) == Run(cfg, s1, steps[1..]);
    if k == 0 {
      TickSettlesLate(cfg, s, steps[0].input, id);
      TerminalsGrow(cfg, s1, steps[1..], id);
    } else if id in s1.pending.vals && s1.pending.vals[id] == s.pending.vals[id] {
      SettledByDeadline(cfg, s1, steps[1..], k - 1, id);
    } else {
      TerminalsGrow(cfg, s1, steps[1..], id);
    }
  }

  /** From the start: whatever happened before, an event that is pending has its terminal emission
      once a pass is made at or after its deadline. */
  lemma EveryPendingSettles(cfg: Config, before: seq<Step>, after: seq<Step>, k: nat, id: Id)
    requires id in Run(cfg, Init(), before).pending.vals
    requires k < |after| && after[k].Tick? && after[k].input.now >= 0.0
    requires after[k].input.now >= Deadline(cfg, Run(cfg, Init(), before).pending.vals[id])
    ensures var s := Run(cfg, Init(), before);
            Terminals(Run(cfg, s, after), id) > Terminals(s, id)
  {
    EveryRunKeepsInv(cfg, before);
    RunKeepsBounded(cfg, Init(), before);
    SettledByDeadline(cfg, Run(cfg, Init(), before), after, k, id);
  }

  // ---------------------------------------------------------------- confidence

  /** Confidence 1.0 is emitted in state CONFIRMED and in no other; AWAITING_CONFIRM is never
      emitted; a confirmation on the pending path rests on a filing of the same symbol sharing
      30% of the words and not disagreeing on the category. */
  lemma EveryEmissionConfidence(cfg: Config, steps: seq<Step>, i: nat)
    requires i < |Run(cfg, Init(), steps).trace|
    ensures var e := Run(cfg, Init(), steps).trace[i];
            && e.ve.state != AwaitingConfirm
            && 0.0 <= e.ve.confidence <= 1.0
            && (if e.ve.state == Confirmed then e.ve.confidence == 1.0 else e.ve.confidence <= 0.7)
            && (e.ve.state == Confirmed && e.ve.raw.source == TrueData ==>
                  e.ve.evidence.Matched? && Eligible(e.ve.raw, e.ve.evidence.filing)
                  && !Conflicts(e.ve.raw, e.ve.evidence.filing))
  {
    EveryRunKeepsInv(cfg, steps);
    assert Sound(Run(cfg, Init(), steps).trace, i);
  }

  /** An expiry carries confidence 0.5 exactly when the id had a provisional before it, else 0. */
  lemma EveryExpiryConfidence(cfg: Config, steps: seq<Step>, i: nat)
    requires i < |Run(cfg, Init(), steps).trace|
    requires Run(cfg, Init(), steps).trace[i].ve.state == ExpiredNoConfirm
    ensures var trace := Run(cfg, Init(), steps).trace;
            trace[i].ve.confidence
            == if Provisional in History(trace[..i], trace[i].ve.raw.id) then 0.5 else 0.0
  {
    EveryRunKeepsInv(cfg, steps);
    assert Sound(Run(cfg, Init(), steps).trace, i);
  }

  // ---------------------------------------------------------------- what a match and a conflict are

  /** The score is the share of common words. */
  lemma ScoreIsShare(raw: RawEvent, f: Filing)
    ensures if raw.tokens == {} || f.tokens == {} then Score(raw, f) == 0.0
            else Score(raw, f) * |raw.tokens + f.tokens| as real == |raw.tokens * f.tokens| as real
  {
    if raw.tokens != {} && f.tokens != {} {
      var w :| w in raw.tokens;
      assert w in raw.tokens + f.tokens;
      QuotientTimes(|raw.tokens * f.tokens| as real, |raw.tokens + f.tokens| as real);
    }
  }

  lemma QuotientTimes(a: real, b: real)
    requires b > 0.0
    ensures a / b * b == a
  {
  }

  /** A filing of the symbol that has at least three words in ten in common with the event. */
  predicate SharesWords(raw: RawEvent, f: Filing) {
    && raw.symbol == f.symbol && raw.tokens != {} && f.tokens != {}
    && 10 * |raw.tokens * f.tokens| >= 3 * |raw.tokens + f.tokens|
  }

  lemma EligibleIff(raw: RawEvent, f: Filing)
    ensures Eligible(raw, f) <==> SharesWords(raw, f)
  {
    ScoreIsShare(raw, f);
    if raw.tokens != {} && f.tokens != {} {
      var w :| w in raw.tokens;
      assert w in raw.tokens + f.tokens;
      AtLeastShare(Score(raw, f), |raw.tokens * f.tokens|, |raw.tokens + f.tokens|);
    }
  }

  lemma AtLeastShare(score: real, common: nat, all: nat)
    requires all > 0 && score * all as real == common as real
    ensures score >= 0.3 <==> 10 * common >= 3 * all
  {
    if score >= 0.3 {
      assert (score - 0.3) * all as real >= 0.0;
    } else {
      assert (0.3 - score) * all as real > 0.0;
    }
  }

  /** What a match means: both categories and both normalised categories are there and the
      normalised ones differ, or the event is confirmed. */
  ghost predicate Judged(raw: RawEvent, f: Filing, ve: VerifiedEvent) {
    && ve.raw == raw && ve.evidence == Matched(f)
    && if raw.category != "" && f.category != "" && raw.normCategory != "" && f.normCategory != ""
          && raw.normCategory != f.normCategory
       then ve.state == Conflict && ve.confidence == 0.5
       else ve.state == Confirmed && ve.confidence == 1.0
  }

  /** Resolving judges the first best of the filings that share enough words, if there is one. */
  lemma ResolveJudges(raw: RawEvent, candidates: seq<Filing>, initial: State)
    ensures if exists j | 0 <= j < |candidates| :: SharesWords(raw, candidates[j])
            then exists i: nat :: FirstBest(raw, candidates, i) && SharesWords(raw, candidates[i])
                                  && Judged(raw, candidates[i], Resolve(raw, candidates, initial))
            else var state := Resolve(raw, candidates, initial).state; !state.Confirmed? && !state.Conflict?
  {
    OfficialMatchIsFirstBest(raw, candidates);
    forall j | 0 <= j < |candidates| ensures Eligible(raw, candidates[j]) <==> SharesWords(raw, candidates[j]) {
      EligibleIff(raw, candidates[j]);
    }
    var m := OfficialMatch(raw, candidates);
    if m.Some? {
      var i: nat :| FirstBest(raw, candidates, i) && candidates[i] == m.value;
      assert SharesWords(raw, candidates[i]) && Judged(raw, candidates[i], Resolve(raw, candidates, initial));
    } else if initial != AwaitingConfirm {
      assert Resolve(raw, candidates, initial).state == LiveUnconfirmed;
    }
  }

  /** In every run a terminal emission that rests on a filing judges it so. */
  lemma EveryTerminalJudged(cfg: Config, steps: seq<Step>, i: nat)
    requires i < |Run(cfg, Init(), steps).trace|
    ensures var e := Run(cfg, Init(), steps).trace[i];
            e.kind == Terminal && e.ve.evidence.Matched? ==>
              SharesWords(e.ve.raw, e.ve.evidence.filing) && Judged(e.ve.raw, e.ve.evidence.filing, e.ve)
    ensures var e := Run(cfg, Init(), steps).trace[i];
            e.kind == Terminal && !e.ve.evidence.Matched? ==> e.ve.state == ExpiredNoConfirm
  {
    EveryRunKeepsInv(cfg, steps);
    var e := Run(cfg, Init(), steps).trace[i];
    assert Sound(Run(cfg, Init(), steps).trace, i);
    if e.ve.evidence.Matched? {
      EligibleIff(e.ve.raw, e.ve.evidence.filing);
    }
  }

  // ---------------------------------------------------------------- what a pass does to one event

  /** What the machine holds about one id: its arrival, its next poll, its raw record, and what has
      been emitted for it outside the official short-circuit. */
  datatype View = View(arrival: Option<real>, due: Option<real>, raw: Option<RawEvent>, partial: bool,
                       emitted: seq<Emission>)

  function EmittedFor(trace: seq<Emission>, id: Id): seq<Emission> {
    if trace == [] then []
    else
      var e := trace[|trace| - 1];
      EmittedFor(trace[..|trace| - 1], id) + (if e.kind != Official && e.ve.raw.id == id then [e] else [])
  }

  lemma EmittedForSnoc(trace: seq<Emission>, e: Emission, id: Id)
    ensures EmittedFor(trace + [e], id)
         == EmittedFor(trace, id) + (if e.kind != Official && e.ve.raw.id == id then [e] else [])
  {
    assert (trace + [e])[..|trace|] == trace;
  }

  function ViewOf(s: Core, id: Id): View {
    View(if id in s.pending.vals then Some(s.pending.vals[id]) else None,
         if id in s.nextPoll then Some(s.nextPoll[id]) else None,
         if id in s.raws then Some(s.raws[id]) else None,
         id in s.partial, EmittedFor(s.trace, id))
  }

  /** The ids are processed independently. */
  lemma TickOneLeavesOthers(cfg: Config, s: Core, x: Id, t: TickInput, id: Id)
    requires Inv(s) && x != id
    ensures ViewOf(TickOne(cfg, s, x, t), id) == ViewOf(s, id)
  {
    if x in s.pending.vals && t.now >= DueAt(s, x) {
      var raw, elapsed := s.raws[x], t.now - s.pending.vals[x];
      if elapsed >= cfg.timeout {
        assert TickOne(cfg, s, x, t) == Settled(s, Expiry(s, raw, x), x);
        SettledLeavesOthers(s, Expiry(s, raw, x), x, id);
      } else if Polled(raw, x, t).state == Confirmed || Polled(raw, x, t).state == Conflict {
        assert TickOne(cfg, s, x, t) == Settled(s, Polled(raw, x, t), x);
        SettledLeavesOthers(s, Polled(raw, x, t), x, id);
      }
    }
  }

  lemma SettledLeavesOthers(s: Core, ve: VerifiedEvent, x: Id, id: Id)
    requires s.pending.Valid() && ve.raw.id == x && x != id
    ensures ViewOf(Settled(s, ve, x), id) == ViewOf(s, id)
  {
    EmittedForSnoc(s.trace, Emission(ve, Terminal), id);
  }

  lemma {:induction false} TickAllLeavesOthers(cfg: Config, s: Core, ids: seq<Id>, t: TickInput, id: Id)
    requires Inv(s) && id !in ids
    ensures ViewOf(TickAll(cfg, s, ids, t), id) == ViewOf(s, id)
    decreases |ids|
  {
    if ids != [] {
      TickOneLeavesOthers(cfg, s, ids[0], t, id);
      TickOneKeepsInv(cfg, s, ids[0], t);
      TickAllLeavesOthers(cfg, TickOne(cfg, s, ids[0], t), ids[1..], t, id);
    }
  }

  /** The state `m` in which a pass comes to an id. */
  lemma {:induction false} TickReaches(cfg: Config, s: Core, ids: seq<Id>, t: TickInput, id: Id) returns (m: Core)
    requires Inv(s) && id in ids && Distinct(ids)
    ensures Inv(m) && ViewOf(m, id) == ViewOf(s, id)
    ensures ViewOf(TickAll(cfg, s, ids, t), id) == ViewOf(TickOne(cfg, m, id, t), id)
    decreases |ids|
  {
    TickOneKeepsInv(cfg, s, ids[0], t);
    if ids[0] == id {
      m := s;
      assert id !in ids[1..];
      TickAllLeavesOthers(cfg, TickOne(cfg, s, id, t), ids[1..], t, id);
    } else {
      TickOneLeavesOthers(cfg, s, ids[0], t, id);
      m := TickReaches(cfg, TickOne(cfg, s, ids[0], t), ids[1..], t, id);
    }
  }

  lemma PassReaches(cfg: Config, steps: seq<Step>, t: TickInput, id: Id) returns (m: Core)
    requires ViewOf(Run(cfg, Init(), steps), id).arrival.Some?
    ensures Inv(m) && ViewOf(m, id) == ViewOf(Run(cfg, Init(), steps), id)
    ensures ViewOf(Next(cfg, Run(cfg, Init(), steps), Tick(t)), id) == ViewOf(TickOne(cfg, m, id, t), id)
  {
    var s := Run(cfg, Init(), steps);
    EveryRunKeepsInv(cfg, steps);
    m := TickReaches(cfg, s, s.pending.keys, t, id);
  }

  predicate IsDue(v: View, now: real) {
    v.arrival.Some? && v.raw.Some? && now >= (if v.due.Some? then v.due.value else 0.0)
  }

  /** A pass leaves an event alone before it is due. */
  lemma PassBeforeDue(cfg: Config, steps: seq<Step>, t: TickInput, id: Id)
    requires var v := ViewOf(Run(cfg, Init(), steps), id); v.arrival.Some? && !IsDue(v, t.now)
    ensures ViewOf(Next(cfg, Run(cfg, Init(), steps), Tick(t)), id) == ViewOf(Run(cfg, Init(), steps), id)
  {
    var m := PassReaches(cfg, steps, t, id);
  }

  /** An emission for an id that ends its being pending. */
  function Ended(v: View, ve: VerifiedEvent): View {
    v.(arrival := None, due := None, emitted := v.emitted + [Emission(ve, Terminal)])
  }

  lemma SettledView(s: Core, ve: VerifiedEvent, id: Id)
    requires s.pending.Valid() && ve.raw.id == id
    ensures ViewOf(Settled(s, ve, id), id) == Ended(ViewOf(s, id), ve)
  {
    EmittedForSnoc(s.trace, Emission(ve, Terminal), id);
  }

  function ExpiredEvent(v: View): VerifiedEvent
    requires v.raw.Some?
  {
    VerifiedEvent(v.raw.value, ExpiredNoConfirm, if v.partial then 0.5 else 0.0, NoEvidence)
  }

  lemma OneExpires(cfg: Config, m: Core, t: TickInput, id: Id)
    requires Inv(m) && IsDue(ViewOf(m, id), t.now) && t.now - m.pending.vals[id] >= cfg.timeout
    ensures ViewOf(TickOne(cfg, m, id, t), id) == Ended(ViewOf(m, id), ExpiredEvent(ViewOf(m, id)))
  {
    SettledView(m, Expiry(m, m.raws[id], id), id);
    assert TickOne(cfg, m, id, t) == Settled(m, Expiry(m, m.raws[id], id), id);
  }

  /** A pass expires a due event at the time-out, and not before it. */
  lemma PassExpires(cfg: Config, steps: seq<Step>, t: TickInput, id: Id)
    requires var v := ViewOf(Run(cfg, Init(), steps), id); IsDue(v, t.now) && t.now - v.arrival.value >= cfg.timeout
    ensures var v, r := ViewOf(Run(cfg, Init(), steps), id), ViewOf(Next(cfg, Run(cfg, Init(), steps), Tick(t)), id);
            r == Ended(v, ExpiredEvent(v))
  {
    var m := PassReaches(cfg, steps, t, id);
    OneExpires(cfg, m, t, id);
  }

  /** `r` is `v` after a terminal emission on the first best of the filings that share enough words. */
  ghost predicate ConfirmedOn(v: View, r: View, fs: seq<Filing>, i: nat, ve: VerifiedEvent)
    requires v.raw.Some?
  {
    && FirstBest(v.raw.value, fs, i) && SharesWords(v.raw.value, fs[i])
    && Judged(v.raw.value, fs[i], ve) && r == Ended(v, ve)
  }

  lemma OneConfirms(cfg: Config, m: Core, t: TickInput, id: Id, fs: seq<Filing>) returns (i: nat, ve: VerifiedEvent)
    requires Inv(m) && IsDue(ViewOf(m, id), t.now) && t.now - m.pending.vals[id] < cfg.timeout
    requires t.fetch(id) == Some(fs) && exists j | 0 <= j < |fs| :: SharesWords(m.raws[id], fs[j])
    ensures ConfirmedOn(ViewOf(m, id), ViewOf(TickOne(cfg, m, id, t), id), fs, i, ve)
  {
    i := SomeResolves(m.raws[id], id, t, fs);
    ve := Polled(m.raws[id], id, t);
    SettledView(m, ve, id);
    assert TickOne(cfg, m, id, t) == Settled(m, ve, id);
  }

  lemma SomeResolves(raw: RawEvent, id: Id, t: TickInput, fs: seq<Filing>) returns (i: nat)
    requires t.fetch(id) == Some(fs) && exists j | 0 <= j < |fs| :: SharesWords(raw, fs[j])
    ensures FirstBest(raw, fs, i) && SharesWords(raw, fs[i]) && Judged(raw, fs[i], Polled(raw, id, t))
  {
    ResolveJudges(raw, fs, if Blocking(PhaseAt(t.secondOfDay(id))) then AwaitingConfirm else LiveUnconfirmed);
    i :| FirstBest(raw, fs, i) && SharesWords(raw, fs[i]) && Judged(raw, fs[i], Polled(raw, id, t));
  }

  /** A due event that is not timed out is settled by any fetched filing that shares enough words,
      wherever it is in the answer: one terminal emission, on the first best of them. */
  lemma PassConfirms(cfg: Config, steps: seq<Step>, t: TickInput, id: Id, fs: seq<Filing>, j: nat)
    requires var v := ViewOf(Run(cfg, Init(), steps), id);
             && IsDue(v, t.now) && t.now - v.arrival.value < cfg.timeout
             && t.fetch(id) == Some(fs) && j < |fs| && SharesWords(v.raw.value, fs[j])
    ensures var v, r := ViewOf(Run(cfg, Init(), steps), id), ViewOf(Next(cfg, Run(cfg, Init(), steps), Tick(t)), id);
            exists i: nat, ve: VerifiedEvent :: ConfirmedOn(v, r, fs, i, ve)
  {
    var m := PassReaches(cfg, steps, t, id);
    assert SharesWords(ViewOf(m, id).raw.value, fs[j]);
    var i, ve := OneConfirms(cfg, m, t, id, fs);
  }

  function PolledAgain(cfg: Config, v: View, now: real): View
    requires v.arrival.Some?
  {
    v.(due := Some(now + if now - v.arrival.value < 300.0 then cfg.pollInitial else cfg.pollFollowup))
  }

  ghost predicate NoneShares(raw: RawEvent, answer: Option<seq<Filing>>) {
    answer.Some? ==> forall j | 0 <= j < |answer.value| :: !SharesWords(raw, answer.value[j])
  }

  lemma OnePollsAgain(cfg: Config, m: Core, t: TickInput, id: Id)
    requires Inv(m) && IsDue(ViewOf(m, id), t.now) && t.now - m.pending.vals[id] < cfg.timeout
    requires NoneShares(m.raws[id], t.fetch(id))
    ensures ViewOf(TickOne(cfg, m, id, t), id) == PolledAgain(cfg, ViewOf(m, id), t.now)
  {
    NoneResolves(m.raws[id], id, t);
    assert TickOne(cfg, m, id, t)
        == m.(nextPoll := m.nextPoll[id := t.now + Cadence(cfg, t.now - m.pending.vals[id])]);
  }

  lemma NoneResolves(raw: RawEvent, id: Id, t: TickInput)
    requires NoneShares(raw, t.fetch(id))
    ensures Polled(raw, id, t).state != Confirmed && Polled(raw, id, t).state != Conflict
  {
    var answer := t.fetch(id);
    ResolveJudges(raw, if answer.Some? then answer.value else [],
                  if Blocking(PhaseAt(t.secondOfDay(id))) then AwaitingConfirm else LiveUnconfirmed);
  }

  /** Without such a filing, or when the fetch raises, nothing is emitted and the event is polled
      again after the one cadence in its first five minutes and the other from then on. */
  lemma PassPollsAgain(cfg: Config, steps: seq<Step>, t: TickInput, id: Id)
    requires var v := ViewOf(Run(cfg, Init(), steps), id);
             && IsDue(v, t.now) && t.now - v.arrival.value < cfg.timeout
             && NoneShares(v.raw.value, t.fetch(id))
    ensures var v, r := ViewOf(Run(cfg, Init(), steps), id), ViewOf(Next(cfg, Run(cfg, Init(), steps), Tick(t)), id);
            r == PolledAgain(cfg, v, t.now)
  {
    var m := PassReaches(cfg, steps, t, id);
    OnePollsAgain(cfg, m, t, id);
  }

  // ---------------------------------------------------------------- what a drain does to one record

  lemma {:induction false} DrainAllSnoc(s: Core, batch: seq<(RawEvent, Reading)>, k: nat)
    requires s.pending.Valid() && k < |batch|
    ensures DrainAll(s, batch[..k + 1]) == DrainOne(DrainAll(s, batch[..k]), batch[k].0, batch[k].1)
    decreases k
  {
    if k == 0 {
      assert batch[..1] == [batch[0]] && batch[..1][1..] == [] && batch[..0] == [];
      assert DrainAll(DrainOne(s, batch[0].0, batch[0].1), []) == DrainOne(s, batch[0].0, batch[0].1);
    } else {
      assert batch[..k + 1][1..] == batch[1..][..k] && batch[..k][1..] == batch[1..][..k - 1];
      DrainAllSnoc(DrainOne(s, batch[0].0, batch[0].1), batch[1..], k - 1);
    }
  }

  /** A record of an exchange feed is emitted CONFIRMED at once and never admitted. */
  ghost predicate IsOfficial(m: Core, r: Core, raw: RawEvent) {
    r == m.(trace := m.trace + [Emission(VerifiedEvent(raw, Confirmed, 1.0, OwnFiling), Official)])
  }

  /** A vendor record that is not pending is admitted, due at once. It is announced at 0.7 from 9:15
      to 15:30, unless it had a provisional before; outside those hours nothing is emitted. */
  ghost predicate IsAdmitted(m: Core, r: Core, raw: RawEvent, at: Reading) {
    && r.pending.vals == m.pending.vals[raw.id := at.now] && r.pending.keys == m.pending.keys + [raw.id]
    && r.nextPoll == m.nextPoll[raw.id := at.now] && r.raws == m.raws[raw.id := raw]
    && r.admitted == m.admitted + [raw.id]
    && r.trace == m.trace
                  + if 33300 <= at.secondOfDay < 55800 && Provisional !in History(m.trace, raw.id)
                    then [Emission(VerifiedEvent(raw, LiveUnconfirmed, 0.7, NoEvidence), Provisional)] else []
  }

  /** Every record of every drained batch is emitted as official, admitted, or ignored because its id
      is pending. */
  lemma EveryDrainedRecord(cfg: Config, steps: seq<Step>, batch: seq<(RawEvent, Reading)>, k: nat)
    requires k < |batch|
    ensures var s := Run(cfg, Init(), steps);
            var m, r, raw := DrainAll(s, batch[..k]), DrainAll(s, batch[..k + 1]), batch[k].0;
            && Next(cfg, s, Drain(batch)) == DrainAll(s, batch[..|batch|])
            && if raw.source != TrueData then IsOfficial(m, r, raw)
               else if raw.id in m.pending.vals then r == m
               else IsAdmitted(m, r, raw, batch[k].1)
  {
    var s := Run(cfg, Init(), steps);
    EveryRunKeepsInv(cfg, steps);
    DrainAllKeepsInv(s, batch[..k]);
    DrainAllSnoc(s, batch, k);
    DrainOneDoes(DrainAll(s, batch[..k]), batch[k].0, batch[k].1);
    assert batch[..|batch|] == batch;
  }

  lemma DrainOneDoes(m: Core, raw: RawEvent, at: Reading)
    requires Inv(m)
    ensures var r := DrainOne(m, raw, at);
            if raw.source != TrueData then IsOfficial(m, r, raw)
            else if raw.id in m.pending.vals then r == m
            else IsAdmitted(m, r, raw, at)
  {
    if raw.source == TrueData && raw.id !in m.pending.vals {
      assert Ledger(m, raw.id);
      PartialMeansProvisional(m, raw.id);
      AdmittingDoes(m, raw, at);
    }
  }

  lemma AdmittingDoes(m: Core, raw: RawEvent, at: Reading)
    requires m.pending.Valid() && raw.source == TrueData && raw.id !in m.pending.vals
    requires raw.id in m.partial <==> Provisional in History(m.trace, raw.id)
    ensures IsAdmitted(m, DrainOne(m, raw, at), raw, at)
  {
    assert Blocking(PhaseAt(at.secondOfDay)) <==> !(33300 <= at.secondOfDay < 55800);
    assert m.trace + [] == m.trace;
  }

  // ---------------------------------------------------------------- the code

  /** The running verifier. `inQueue` holds what the producers have put and `outQueue` what the
      classifier has not yet taken; both are shared, so other threads may change them between calls. */
  class Verifier {
    const cfg: Config
    const outMax: int
    var inQueue: seq<RawEvent>
    var outQueue: seq<VerifiedEvent>
    var pending: Dict<Id, real>
    var nextPoll: map<Id, real>
    var raws: map<Id, RawEvent>
    var partial: set<Id>
    ghost var trace: seq<Emission>
    ghost var admitted: seq<Id>

    ghost function Abs(): Core
      reads this
    {
      Core(pending, nextPoll, raws, partial, trace, admitted)
    }

    constructor (cfg: Config, outMax: int)
      ensures this.cfg == cfg && this.outMax == outMax
      ensures Abs() == Init() && inQueue == [] && outQueue == []
    {
      this.cfg, this.outMax := cfg, outMax;
      inQueue, outQueue := [], [];
      pending, nextPoll, raws, partial := EmptyDict(), map[], map[], {};
      trace, admitted := [], [];
    }

    /** `_match_official`: the best-so-far loop. */
    static method MatchOfficial(raw: RawEvent, candidates: seq<Filing>) returns (r: Option<Filing>)
      ensures r == OfficialMatch(raw, candidates)
      ensures r.Some? <==> exists j | 0 <= j < |candidates| :: Eligible(raw, candidates[j])
    {
      OfficialMatchIsFirstBest(raw, candidates);
      var best: Option<Filing>, bestScore := None, 0.0;
      for i := 0 to |candidates|
        invariant (best, bestScore) == BestAmong(raw, candidates[..i])
      {
        assert candidates[..i + 1][..i] == candidates[..i];
        var f := candidates[i];
        if f.symbol == raw.symbol {
          var score := Score(raw, f);
          if score > bestScore {
            best, bestScore := Some(f), score;
          }
        }
      }
      assert candidates[..|candidates|] == candidates;
      r := if bestScore >= 0.3 then best else None;
    }

    /** `_resolve`, on top of the matching loop. */
    static method ResolveRaw(raw: RawEvent, candidates: seq<Filing>, initial: State) returns (r: VerifiedEvent)
      ensures r == Resolve(raw, candidates, initial)
    {
      var matched := MatchOfficial(raw, candidates);
      if matched.None? {
        if initial == AwaitingConfirm {
          return VerifiedEvent(raw, AwaitingConfirm, 0.0, NoEvidence);
        }
        return VerifiedEvent(raw, LiveUnconfirmed, 0.7, NoEvidence);
      }
      if Conflicts(raw, matched.value) {
        return VerifiedEvent(raw, Conflict, 0.5, Matched(matched.value));
      }
      return VerifiedEvent(raw, Confirmed, 1.0, Matched(matched.value));
    }

    /** `_emit`. */
    method Emit(ve: VerifiedEvent, isPartial: bool, ghost kind: Kind)
      requires isPartial <==> kind == Provisional
      modifies this`partial, this`outQueue, this`trace
      ensures isPartial && ve.raw.id in old(partial) ==> Abs() == old(Abs())
      ensures !(isPartial && ve.raw.id in old(partial)) ==>
                Abs() == Emitted(old(Abs()).(partial := old(partial) + if isPartial then {ve.raw.id} else {}), ve, kind)
      ensures Sent(outMax, old(outQueue), old(trace), outQueue, trace)
    {
      if isPartial {
        if ve.raw.id in partial {
          assert trace[|trace|..] == [];
          return;
        }
        partial := partial + {ve.raw.id};
      }
      SentOne(outMax, outQueue, trace, Emission(ve, kind));
      trace := trace + [Emission(ve, kind)];
      if !DropOldest.Full(outQueue, outMax) {
        outQueue := outQueue + [ve];
      } else {
        outQueue := outQueue[1..];
        outQueue := outQueue + [ve];
      }
    }

    /** `_drain_with_store`, the body bound to `_drain_in_queue`: take everything queued, then
        process it. `clock[i]` is the time read for the i-th record. */
    method DrainInQueue(clock: seq<Reading>)
      requires pending.Valid() && |clock| == |inQueue|
      modifies this
      ensures inQueue == []
      ensures Abs() == Next(cfg, old(Abs()), Drain(Paired(old(inQueue), clock)))
      ensures Sent(outMax, old(outQueue), old(trace), outQueue, trace)
    {
      var events := inQueue;
      inQueue := [];
      ghost var batch := Paired(events, clock);
      for i := 0 to |events|
        invariant inQueue == [] && pending.Valid()
        invariant Sent(outMax, old(outQueue), old(trace), outQueue, trace)
        invariant DrainAll(Abs(), batch[i..]) == DrainAll(old(Abs()), batch)
      {
        DrainAllFrom(Abs(), batch, i);
        ghost var queue, sent := outQueue, trace;
        DrainEvent(events[i], clock[i]);
        SentJoin(outMax, old(outQueue), old(trace), queue, sent, outQueue, trace);
      }
    }

    /** The body of the drain loop. */
    method DrainEvent(raw: RawEvent, at: Reading)
      requires pending.Valid()
      modifies this
      ensures inQueue == old(inQueue)
      ensures Abs() == DrainOne(old(Abs()), raw, at)
      ensures Sent(outMax, old(outQueue), old(trace), outQueue, trace)
    {
      if raw.source != TrueData {
        Emit(VerifiedEvent(raw, Confirmed, 1.0, OwnFiling), false, Official);
        return;
      }
      if raw.id in pending.vals {
        return;
      }
      pending := pending.Put(raw.id, at.now);
      raws := raws[raw.id := raw];
      nextPoll := nextPoll[raw.id := at.now];
      admitted := admitted + [raw.id];
      if !Blocking(PhaseAt(at.secondOfDay)) {
        Emit(VerifiedEvent(raw, LiveUnconfirmed, 0.7, NoEvidence), true, Provisional);
      }
    }

    /** `_tick_pending`: a pass over a snapshot of the pending ids. */
    method TickPending(t: TickInput)
      requires pending.Valid()
      modifies this
      ensures inQueue == old(inQueue)
      ensures Abs() == Next(cfg, old(Abs()), Tick(t))
      ensures Sent(outMax, old(outQueue), old(trace), outQueue, trace)
    {
      var ids := pending.keys;
      for i := 0 to |ids|
        invariant inQueue == old(inQueue) && pending.Valid()
        invariant Sent(outMax, old(outQueue), old(trace), outQueue, trace)
        invariant TickAll(cfg, Abs(), ids[i..], t) == TickAll(cfg, old(Abs()), ids, t)
      {
        TickAllFrom(cfg, Abs(), ids, i, t);
        ghost var queue, sent := outQueue, trace;
        TickEvent(ids[i], t);
        SentJoin(outMax, old(outQueue), old(trace), queue, sent, outQueue, trace);
      }
    }

    /** The body of the tick loop. */
    method TickEvent(id: Id, t: TickInput)
      requires pending.Valid()
      modifies this
      ensures inQueue == old(inQueue)
      ensures Abs() == TickOne(cfg, old(Abs()), id, t)
      ensures Sent(outMax, old(outQueue), old(trace), outQueue, trace)
    {
      if id !in pending.vals {
        return;
      }
      var arrivedAt := pending.vals[id];
      var dueAt := if id in nextPoll then nextPoll[id] else 0.0;
      if t.now < dueAt {
        return;
      }
      if id !in raws {
        Pop(id);
        return;
      }
      var raw := raws[id];
      if t.now - arrivedAt >= cfg.timeout {
        Settle(VerifiedEvent(raw, ExpiredNoConfirm, if id in partial then 0.5 else 0.0, NoEvidence), id);
        return;
      }
      var answer := t.fetch(id);
      var candidates := if answer.Some? then answer.value else [];
      var initial := if Blocking(PhaseAt(t.secondOfDay(id))) then AwaitingConfirm else LiveUnconfirmed;
      var resolved := ResolveRaw(raw, candidates, initial);
      if resolved.state == Confirmed || resolved.state == Conflict {
        Settle(resolved, id);
        return;
      }
      var elapsed := t.now - arrivedAt;
      var cadence := if elapsed < 300.0 then cfg.pollInitial else cfg.pollFollowup;
      nextPoll := nextPoll[id := t.now + cadence];
    }

    /** A terminal emission, after which the event is no longer pending. */
    method Settle(ve: VerifiedEvent, id: Id)
      requires pending.Valid()
      modifies this
      ensures inQueue == old(inQueue)
      ensures Abs() == Settled(old(Abs()), ve, id)
      ensures Sent(outMax, old(outQueue), old(trace), outQueue, trace)
    {
      Emit(ve, false, Terminal);
      Pop(id);
    }

    method Pop(id: Id)
      requires pending.Valid()
      modifies this`pending, this`nextPoll
      ensures Abs() == Dropped(old(Abs()), id)
    {
      pending := pending.Remove(id);
      nextPoll := nextPoll - {id};
    }
  }

  lemma TickAllFrom(cfg: Config, s: Core, ids: seq<Id>, i: nat, t: TickInput)
    requires s.pending.Valid() && i < |ids|
    ensures TickAll(cfg, s, ids[i..], t) == TickAll(cfg, TickOne(cfg, s, ids[i], t), ids[i + 1..], t)
  {
    assert ids[i..][1..] == ids[i + 1..];
  }

  lemma DrainAllFrom(s: Core, batch: seq<(RawEvent, Reading)>, i: nat)
    requires s.pending.Valid() && i < |batch|
    ensures DrainAll(s, batch[i..]) == DrainAll(DrainOne(s, batch[i].0, batch[i].1), batch[i + 1..])
  {
    assert batch[i..][1..] == batch[i + 1..];
  }

  /** Between two states of the output queue and the trace, exactly the new emissions have been
      offered to the queue, in order. */
  ghost predicate Sent(max: int, queue0: seq<VerifiedEvent>, trace0: seq<Emission>,
                       queue: seq<VerifiedEvent>, trace: seq<Emission>)
  {
    && trace0 <= trace
    && queue == DropOldest.OfferAll(queue0, max, Events(trace[|trace0|..]))
  }

  lemma SentOne(max: int, queue: seq<VerifiedEvent>, trace: seq<Emission>, e: Emission)
    ensures Sent(max, queue, trace, DropOldest.Offer(queue, max, e.ve), trace + [e])
  {
    assert (trace + [e])[|trace|..] == [e];
    assert Events([e]) == [e.ve];
    DropOldest.OfferAllSnoc(queue, max, [], e.ve);
    assert [] + [e.ve] == [e.ve];
  }

  lemma SentJoin(max: int, queue0: seq<VerifiedEvent>, trace0: seq<Emission>,
                 queue1: seq<VerifiedEvent>, trace1: seq<Emission>,
                 queue2: seq<VerifiedEvent>, trace2: seq<Emission>)
    requires Sent(max, queue0, trace0, queue1, trace1)
    requires Sent(max, queue1, trace1, queue2, trace2)
    ensures Sent(max, queue0, trace0, queue2, trace2)
  {
    var first, second := trace1[|trace0|..], trace2[|trace1|..];
    assert trace2[|trace0|..] == first + second;
    assert Events(first + second) == Events(first) + Events(second);
    DropOldest.OfferAllJoin(queue0, max, Events(first), Events(second));
  }

  function Events(trace: seq<Emission>): (r: seq<VerifiedEvent>)
    ensures |r| == |trace| && forall i | 0 <= i < |r| :: r[i] == trace[i].ve
  {
    seq(|trace|, i requires 0 <= i < |trace| => trace[i].ve)
  }

  function Paired(events: seq<RawEvent>, clock: seq<Reading>): (r: seq<(RawEvent, Reading)>)
    requires |events| == |clock|
    ensures |r| == |events| && forall i | 0 <= i < |r| :: r[i].0 == events[i] && r[i].1 == clock[i]
  {
    seq(|events|, i requires 0 <= i < |events| => (events[i], clock[i]))
  }
}
