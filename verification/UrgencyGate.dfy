/**
 From a verified emission to the urgency the router sees: the subtype buckets and urgency table
 of src/event_intelligence/classifier.py and the modulation of adapter.py.
 */
module UrgencyGate {
  import opened Containers
  import opened Numbers
  import C = ConfirmationMachine

  datatype ParseStatus = PdfTable | PdfRegex | Heuristic | Failed | Success | Partial | XbrlFallbackPdf

  datatype Subtype =
    | QuarterlyBlowoutBeat | QuarterlyStrongBeat | QuarterlyBeat | QuarterlyInline
    | QuarterlyMiss | QuarterlyStrongMiss | AnnualBlowout | AnnualDisappointment
    | GuidanceRaisedLarge | GuidanceRaised | GuidanceReaffirmed | GuidanceCut | GuidanceWithdrawn
    | DividendIntroduced | DividendRaisedLarge | DividendRaised | DividendMaintained
    | DividendCut | DividendOmitted | DividendSpecialLarge
    | BoardMeetingResults | BoardMeetingDividend | BoardMeetingOther | OtherSubtype

  datatype Tone = ToneRaised | ToneCut | ToneWithdrawn | ToneReaffirmed | ToneOther
  datatype Action = Introduced | Raised | Special | Cut | Omitted | OtherAction
  datatype Agenda = Results | Dividend | OtherAgenda

  /** What the classifier knows about a filing when it buckets it. A missing delta or yield
      counts as 0. */
  datatype Finding =
    | FinancialResults(annual: bool, surprise: Option<real>)
    | GuidanceChange(tone: Tone, delta: real)
    | DividendAction(action: Action, yieldPct: real)
    | BoardMeeting(agenda: Agenda)
    | OtherFinding

  function BucketResults(annual: bool, surprise: Option<real>): Subtype {
    match surprise
    case None => if annual then AnnualBlowout else QuarterlyInline
    case Some(s) =>
      if s >= 25.0 then if annual then AnnualBlowout else QuarterlyBlowoutBeat
      else if s >= 10.0 then if annual then AnnualBlowout else QuarterlyStrongBeat
      else if s >= 1.0 then QuarterlyBeat
      else if s > -1.0 then QuarterlyInline
      else if s > -10.0 then QuarterlyMiss
      else if annual then AnnualDisappointment else QuarterlyStrongMiss
  }

  function Bucket(f: Finding): Subtype {
    match f
    case FinancialResults(annual, surprise) => BucketResults(annual, surprise)
    case GuidanceChange(ToneRaised, delta) => if Abs(delta) >= 15.0 then GuidanceRaisedLarge else GuidanceRaised
    case GuidanceChange(ToneCut, _) => GuidanceCut
    case GuidanceChange(ToneWithdrawn, _) => GuidanceWithdrawn
    case GuidanceChange(_, _) => GuidanceReaffirmed
    case DividendAction(Introduced, _) => DividendIntroduced
    case DividendAction(Raised, y) => if y >= 2.0 then DividendRaisedLarge else DividendRaised
    case DividendAction(Special, y) => if y >= 2.0 then DividendSpecialLarge else DividendRaised
    case DividendAction(Cut, _) => DividendCut
    case DividendAction(Omitted, _) => DividendOmitted
    case DividendAction(OtherAction, _) => DividendMaintained
    case BoardMeeting(Results) => BoardMeetingResults
    case BoardMeeting(Dividend) => BoardMeetingDividend
    case BoardMeeting(OtherAgenda) => BoardMeetingOther
    case OtherFinding => OtherSubtype
  }

  function BaseUrgency(t: Subtype): real {
    match t
    case QuarterlyBlowoutBeat => 9.5
    case AnnualBlowout => 9.5
    case QuarterlyStrongMiss => 9.0
    case AnnualDisappointment => 9.0
    case GuidanceWithdrawn => 9.0
    case DividendOmitted => 9.0
    case QuarterlyStrongBeat => 8.5
    case GuidanceRaisedLarge => 8.5
    case DividendSpecialLarge => 8.0
    case DividendRaisedLarge => 7.5
    case QuarterlyBeat => 7.0
    case QuarterlyMiss => 7.0
    case GuidanceRaised => 7.0
    case GuidanceCut => 7.0
    case DividendCut => 6.5
    case DividendIntroduced => 6.0
    case DividendRaised => 5.5
    case QuarterlyInline => 4.0
    case GuidanceReaffirmed => 3.0
    case DividendMaintained => 2.0
    case BoardMeetingResults => 4.5
    case BoardMeetingDividend => 3.5
    case BoardMeetingOther => 1.5
    case OtherSubtype => 2.0
  }

  function Urgency(t: Subtype, status: ParseStatus): real {
    var base := BaseUrgency(t);
    if status == Heuristic && base > 5.0 then 5.0 else base
  }

  /** The urgency of the filing event handed to the router. */
  function EffectiveUrgency(ve: C.VerifiedEvent, f: Finding, status: ParseStatus): real {
    Urgency(Bucket(f), status) * ve.confidence
  }

  const GATE := 8.5

  /** The findings strong enough for the gate: a surprise of at least 10% either way, an annual
      result with no surprise at all, a large raise or a withdrawal of guidance, an omitted dividend. */
  predicate Strong(f: Finding) {
    match f
    case FinancialResults(annual, None) => annual
    case FinancialResults(_, Some(s)) => s >= 10.0 || s <= -10.0
    case GuidanceChange(tone, delta) =>
      tone == ToneWithdrawn || (tone == ToneRaised && (delta >= 15.0 || delta <= -15.0))
    case DividendAction(action, _) => action == Omitted
    case BoardMeeting(_) => false
    case OtherFinding => false
  }

  lemma StrongMeansBase(f: Finding)
    ensures Strong(f) <==> BaseUrgency(Bucket(f)) >= GATE
    ensures 1.5 <= BaseUrgency(Bucket(f)) <= 9.5
  {
  }

  lemma Modulated(urgency: real, confidence: real)
    requires 0.0 <= urgency <= 9.5 && 0.0 <= confidence <= 0.7
    ensures urgency * confidence < GATE
  {
    assert urgency * confidence <= 9.5 * confidence;
  }

  // ---------------------------------------------------------------- below the gate

  datatype Direction = Buy | Short | Neutral

  function DirectionOf(t: Subtype): Direction {
    match t
    case QuarterlyBlowoutBeat => Buy
    case QuarterlyStrongBeat => Buy
    case QuarterlyBeat => Buy
    case AnnualBlowout => Buy
    case GuidanceRaisedLarge => Buy
    case GuidanceRaised => Buy
    case DividendIntroduced => Buy
    case DividendRaisedLarge => Buy
    case DividendRaised => Buy
    case DividendSpecialLarge => Buy
    case QuarterlyMiss => Short
    case QuarterlyStrongMiss => Short
    case AnnualDisappointment => Short
    case GuidanceCut => Short
    case GuidanceWithdrawn => Short
    case DividendCut => Short
    case DividendOmitted => Short
    case _ => Neutral
  }

  /** A result points up exactly from a surprise of 1 % on, and down exactly from one of -1 % on. */
  lemma ResultsPointWithSurprise(annual: bool, s: real)
    ensures var d := DirectionOf(Bucket(FinancialResults(annual, Some(s))));
            (d == Buy <==> s >= 1.0) && (d == Short <==> s <= -1.0)
  {
  }

  /** A larger surprise, in either direction, never has a lower urgency. */
  lemma UrgencyGrowsWithSurprise(annual: bool, s: real, t: real, status: ParseStatus)
    requires 0.0 <= s <= t || t <= s <= 0.0
    ensures Urgency(Bucket(FinancialResults(annual, Some(s))), status)
         <= Urgency(Bucket(FinancialResults(annual, Some(t))), status)
  {
  }

  /** Small surprises are urgent at 4, then 7; what is above that is for surprises of 10 % and more. */
  lemma SmallSurprises(annual: bool, s: real)
    requires -10.0 < s < 10.0
    ensures BaseUrgency(Bucket(FinancialResults(annual, Some(s)))) == if -1.0 < s < 1.0 then 4.0 else 7.0
  {
  }

  function Base(f: Finding): real { BaseUrgency(Bucket(f)) }

  /** Guidance in order of urgency. */
  lemma GuidanceOrder(large: real, small: real)
    requires large >= 15.0 && -15.0 < small < 15.0
    ensures Base(GuidanceChange(ToneWithdrawn, small)) > Base(GuidanceChange(ToneRaised, large))
          > Base(GuidanceChange(ToneRaised, small)) == Base(GuidanceChange(ToneCut, large))
          > Base(GuidanceChange(ToneReaffirmed, large)) == Base(GuidanceChange(ToneOther, large))
  {
  }

  /** Dividends in order of urgency: a special one below a yield of 2 % counts as a raise. */
  lemma DividendOrder(large: real, small: real)
    requires large >= 2.0 && small < 2.0
    ensures Base(DividendAction(Omitted, small)) > Base(DividendAction(Special, large))
          > Base(DividendAction(Raised, large)) > Base(DividendAction(Cut, large))
          > Base(DividendAction(Introduced, large)) > Base(DividendAction(Raised, small))
          > Base(DividendAction(OtherAction, large))
    ensures Bucket(DividendAction(Special, small)) == Bucket(DividendAction(Raised, small))
  {
  }

  /** A board meeting is below every cap, and ordered by what it is to decide. */
  lemma BoardOrder()
    ensures 5.0 > Base(BoardMeeting(Results)) > Base(FinancialResults(false, None))
          > Base(BoardMeeting(Dividend)) > Base(GuidanceChange(ToneReaffirmed, 0.0))
          > Base(OtherFinding) > Base(BoardMeeting(OtherAgenda))
  {
  }

  /** The heuristic caps the urgency at 5; otherwise nothing does, and a vendor-only event has seven
      tenths of what the same event has when it is confirmed. */
  lemma CapAndShare(ve: C.VerifiedEvent, f: Finding, status: ParseStatus)
    ensures Urgency(Bucket(f), Heuristic) == if Base(f) > 5.0 then 5.0 else Base(f)
    ensures status != Heuristic || Base(f) <= 5.0 ==> Urgency(Bucket(f), status) == Base(f)
    ensures EffectiveUrgency(ve.(confidence := 0.7), f, status)
         == 0.7 * EffectiveUrgency(ve.(confidence := 1.0), f, status)
    ensures EffectiveUrgency(ve.(confidence := 1.0), f, status) == Urgency(Bucket(f), status)
  {
  }

  /** Full confidence goes with confirmation, and nothing else gets past 0.7. */
  ghost predicate Credible(ve: C.VerifiedEvent) {
    if ve.state == C.Confirmed then ve.confidence == 1.0 else 0.0 <= ve.confidence <= 0.7
  }

  lemma GateOnCredible(ve: C.VerifiedEvent, f: Finding, status: ParseStatus)
    requires Credible(ve)
    ensures EffectiveUrgency(ve, f, status) >= GATE
            <==> ve.state == C.Confirmed && status != Heuristic && Strong(f)
  {
    StrongMeansBase(f);
    if ve.state != C.Confirmed {
      Modulated(Urgency(Bucket(f), status), ve.confidence);
    }
  }

  lemma EveryEmissionCredible(cfg: C.Config, steps: seq<C.Step>, i: nat)
    requires i < |C.Run(cfg, C.Init(), steps).trace|
    ensures Credible(C.Run(cfg, C.Init(), steps).trace[i].ve)
  {
    C.EveryEmissionConfidence(cfg, steps, i);
  }

  /** In every run of the verifier, an emission reaches the gate after classification exactly
      when it was emitted CONFIRMED, its document was parsed by more than the headline heuristic,
      and the finding is a strong one. A vendor-only, conflicting or expired event never does. */
  lemma GateNeedsConfirmation(cfg: C.Config, steps: seq<C.Step>, i: nat, f: Finding, status: ParseStatus)
    requires i < |C.Run(cfg, C.Init(), steps).trace|
    ensures var ve := C.Run(cfg, C.Init(), steps).trace[i].ve;
            EffectiveUrgency(ve, f, status) >= GATE
            <==> ve.state == C.Confirmed && status != Heuristic && Strong(f)
  {
    EveryEmissionCredible(cfg, steps, i);
    GateOnCredible(C.Run(cfg, C.Init(), steps).trace[i].ve, f, status);
  }
}
