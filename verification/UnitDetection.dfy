/**
 How a reported PAT is brought to crores: the search for the most plausible unit in
 src/event_intelligence/classifier.py, and the first plausible divisor in
 src/event_intelligence/main.py. Both compare with an earlier PAT known to be in crores.
 */
module UnitDetection {
  import opened Containers
  import opened Numbers

  const LAKHS := 100.0

  const RUPEES := 10000000.0

  function RatioTo(v: real, anchor: real): real {
    if anchor == 0.0 then 0.0 else v / anchor
  }

  predicate InBand(ratio: real) {
    0.05 <= Abs(ratio) <= 20.0
  }

  function Candidates(v: real): seq<real> {
    [v, v / LAKHS, v / RUPEES]
  }

  function Distance(v: real, anchor: real): real {
    Abs(RatioTo(v, anchor) - 1.0)
  }

  /** The better of the candidate found so far and the next one. */
  function Better(best: Option<real>, v: real, anchor: real): Option<real> {
    if InBand(RatioTo(v, anchor)) && (best.None? || Distance(v, anchor) < Distance(best.value, anchor))
    then Some(v) else best
  }

  function ClosestIn(candidates: seq<real>, anchor: real): Option<real> {
    if candidates == [] then None
    else Better(ClosestIn(candidates[..|candidates| - 1], anchor), candidates[|candidates| - 1], anchor)
  }

  function Closest(v: real, anchor: real): Option<real> {
    ClosestIn(Candidates(v), anchor)
  }

  function FirstMatch(v: real, anchor: real): Option<real> {
    if InBand(RatioTo(v, anchor)) then Some(v)
    else if InBand(RatioTo(v / LAKHS, anchor)) then Some(v / LAKHS)
    else if InBand(RatioTo(v / RUPEES, anchor)) then Some(v / RUPEES)
    else None
  }

  /** `r` is the first of the plausible candidates closest to the anchor. */
  ghost predicate IsClosest(candidates: seq<real>, anchor: real, r: Option<real>) {
    if r.None? then forall c <- candidates :: !InBand(RatioTo(c, anchor))
    else exists i :: 0 <= i < |candidates| && candidates[i] == r.value && ClosestAt(candidates, anchor, i)
  }

  ghost predicate ClosestAt(candidates: seq<real>, anchor: real, i: int)
    requires 0 <= i < |candidates|
  {
    && InBand(RatioTo(candidates[i], anchor))
    && forall j | 0 <= j < |candidates| && InBand(RatioTo(candidates[j], anchor)) ::
         if j < i then Distance(candidates[i], anchor) < Distance(candidates[j], anchor)
         else Distance(candidates[i], anchor) <= Distance(candidates[j], anchor)
  }

  lemma {:induction false} ClosestInIsClosest(candidates: seq<real>, anchor: real)
    ensures IsClosest(candidates, anchor, ClosestIn(candidates, anchor))
  {
    if candidates != [] {
      var n := |candidates| - 1;
      var before, c := candidates[..n], candidates[n];
      var best := ClosestIn(before, anchor);
      ClosestInIsClosest(before, anchor);
      assert forall j | 0 <= j < n :: candidates[j] == before[j];
      if InBand(RatioTo(c, anchor)) && (best.None? || Distance(c, anchor) < Distance(best.value, anchor)) {
        NewIsClosest(before, c, anchor);
        assert candidates == before + [c];
      } else if best.Some? {
        var i :| 0 <= i < |before| && before[i] == best.value && ClosestAt(before, anchor, i);
        assert ClosestAt(candidates, anchor, i);
      }
    }
  }

  lemma NewIsClosest(before: seq<real>, c: real, anchor: real)
    requires InBand(RatioTo(c, anchor)) && IsClosest(before, anchor, ClosestIn(before, anchor))
    requires ClosestIn(before, anchor).Some? ==>
      Distance(c, anchor) < Distance(ClosestIn(before, anchor).value, anchor)
    ensures ClosestAt(before + [c], anchor, |before|)
  {
  }

  // ---------------------------------------------------------------- when the unit is recovered

  lemma RatioOfMultiple(p: real, k: real, anchor: real)
    ensures RatioTo(k * p, anchor) == k * RatioTo(p, anchor)
  {
    if anchor != 0.0 {
      var q := p / anchor;
      assert k * p == (k * q) * anchor;
    }
  }

  /** The candidates of a figure are fixed multiples of it. */
  lemma CandidateRatios(v: real, anchor: real)
    ensures RatioTo(v / LAKHS, anchor) == RatioTo(v, anchor) / LAKHS
    ensures RatioTo(v / RUPEES, anchor) == RatioTo(v, anchor) / RUPEES
  {
    RatioOfMultiple(v, 1.0 / LAKHS, anchor);
    RatioOfMultiple(v, 1.0 / RUPEES, anchor);
  }

  /** Crores and lakhs are both plausible when the figure is 5 to 20 times the anchor, and then
      lakhs are closer; other pairs of units are never both plausible. */
  lemma ClosestByRatio(v: real, anchor: real)
    ensures var x := Abs(RatioTo(v, anchor));
            Closest(v, anchor) ==
              if 0.05 <= x < 5.0 then Some(v)
              else if 5.0 <= x <= 2000.0 then Some(v / LAKHS)
              else if 500000.0 <= x <= 200000000.0 then Some(v / RUPEES)
              else None
  {
    CandidateRatios(v, anchor);
    var c := Candidates(v);
    assert c[..2] == [v, v / LAKHS] && c[..2][..1] == [v] && c[..2][..1][..0] == [];
    assert ClosestIn([v], anchor) == Better(None, v, anchor);
    assert ClosestIn(c[..2], anchor) == Better(Better(None, v, anchor), v / LAKHS, anchor);
  }

  lemma FirstMatchByRatio(v: real, anchor: real)
    ensures var x := Abs(RatioTo(v, anchor));
            FirstMatch(v, anchor) ==
              if 0.05 <= x <= 20.0 then Some(v)
              else if 20.0 < x <= 2000.0 then Some(v / LAKHS)
              else if 500000.0 <= x <= 200000000.0 then Some(v / RUPEES)
              else None
  {
    CandidateRatios(v, anchor);
  }

  lemma AbsMultiple(k: real, x: real)
    requires k >= 0.0
    ensures Abs(k * x) == k * Abs(x)
  {
  }

  lemma UnitRatios(p: real, anchor: real)
    ensures Abs(RatioTo(LAKHS * p, anchor)) == LAKHS * Abs(RatioTo(p, anchor))
    ensures Abs(RatioTo(RUPEES * p, anchor)) == RUPEES * Abs(RatioTo(p, anchor))
  {
    RatioOfMultiple(p, LAKHS, anchor);
    RatioOfMultiple(p, RUPEES, anchor);
    AbsMultiple(LAKHS, RatioTo(p, anchor));
    AbsMultiple(RUPEES, RatioTo(p, anchor));
  }

  /** The figure that a search must find, in whichever of the three units it was reported. */
  predicate Recovers(search: (real, real) -> Option<real>, p: real, anchor: real) {
    && search(p, anchor) == Some(p)
    && search(LAKHS * p, anchor) == Some(p)
    && search(RUPEES * p, anchor) == Some(p)
  }

  /** The search for the closest unit is right for all three units exactly when the true figure is
      between a twentieth and five times the anchor. */
  lemma ClosestRecoversIff(p: real, anchor: real)
    ensures Recovers(Closest, p, anchor) <==> 0.05 <= Abs(RatioTo(p, anchor)) < 5.0
  {
    UnitRatios(p, anchor);
    ClosestByRatio(p, anchor);
    ClosestByRatio(LAKHS * p, anchor);
    ClosestByRatio(RUPEES * p, anchor);
  }

  /** Taking the first plausible divisor is right for all three units exactly when the true figure
      is more than a fifth of the anchor and at most twenty times it. */
  lemma FirstMatchRecoversIff(p: real, anchor: real)
    ensures Recovers(FirstMatch, p, anchor) <==> 0.2 < Abs(RatioTo(p, anchor)) <= 20.0
  {
    UnitRatios(p, anchor);
    FirstMatchByRatio(p, anchor);
    FirstMatchByRatio(LAKHS * p, anchor);
    FirstMatchByRatio(RUPEES * p, anchor);
  }

  /** The classifier and the auto-store read the same figure differently exactly when it is 5 to 20
      times the anchor as reported: one takes it for lakhs, the other for crores. */
  lemma SearchesAgreeIff(v: real, anchor: real)
    ensures Closest(v, anchor) == FirstMatch(v, anchor) <==> !(5.0 <= Abs(RatioTo(v, anchor)) <= 20.0)
  {
    ClosestByRatio(v, anchor);
    FirstMatchByRatio(v, anchor);
  }

  /** `_surprise_from_db` once the anchor, the PAT of the same quarter a year before, is known. */
  function DbSurprise(v: real, anchor: real): Option<real> {
    if anchor == 0.0 || Closest(v, anchor).None? then None
    else Some((Closest(v, anchor).value - anchor) / Abs(anchor) * 100.0)
  }

  /** In that range the surprise is the true growth, whatever the unit. */
  lemma SurpriseUnitless(p: real, anchor: real)
    requires 0.05 <= Abs(RatioTo(p, anchor)) < 5.0
    ensures DbSurprise(p, anchor) == DbSurprise(LAKHS * p, anchor) == DbSurprise(RUPEES * p, anchor)
         == Some((p - anchor) / Abs(anchor) * 100.0)
  {
    ClosestRecoversIff(p, anchor);
  }

  /** What the auto-store writes for PAT and revenue; `anchor` is absent without an earlier PAT of
      the quarter. */
  function Stored(pat: Option<real>, revenue: Option<real>, anchor: Option<real>): (Option<real>, Option<real>) {
    var patCr := if pat.Some? && anchor.Some? then FirstMatch(pat.value, anchor.value) else None;
    var divided := revenue.Some? && patCr.Some? && pat.value != 0.0 && patCr.value != 0.0;
    (patCr, if divided then Some(revenue.value / (pat.value / patCr.value)) else None)
  }

  lemma NotZero(p: real, anchor: real)
    requires RatioTo(p, anchor) != 0.0
    ensures p != 0.0 && anchor != 0.0
  {
  }

  lemma DividesBack(x: real, k: real)
    requires k != 0.0
    ensures (k * x) / k == x && (x * k) / k == x
    ensures x != 0.0 ==> k * x != 0.0
  {
  }

  /** PAT and revenue of a filing are both stored in crores, whichever unit the filing uses. */
  lemma StoredInCrores(p: real, revenue: real, anchor: real, unit: real)
    requires unit == 1.0 || unit == LAKHS || unit == RUPEES
    requires 0.2 < Abs(RatioTo(p, anchor)) <= 20.0
    ensures Stored(Some(unit * p), Some(unit * revenue), Some(anchor)) == (Some(p), Some(revenue))
  {
    FirstMatchRecoversIff(p, anchor);
    var x, y := unit * p, unit * revenue;
    assert FirstMatch(x, anchor) == Some(p) by {
      if unit == 1.0 {
        assert x == p;
      }
    }
    NotZero(p, anchor);
    DividesBack(p, unit);
    DividesBack(unit, p);
    DividesBack(revenue, unit);
  }

  // ---------------------------------------------------------------- the code

  /** The loop over the three units in `_surprise_from_db` and `_surprise_from_self_consensus`. */
  method FindClosest(v: real, anchor: real) returns (best: Option<real>)
    ensures best == Closest(v, anchor)
    ensures IsClosest(Candidates(v), anchor, best)
  {
    var candidates := Candidates(v);
    var bestDist := 0.0;
    best := None;
    for i := 0 to |candidates|
      invariant best == ClosestIn(candidates[..i], anchor)
      invariant best.Some? ==> bestDist == Distance(best.value, anchor)
    {
      assert candidates[..i + 1][..i] == candidates[..i];
      var ratio := RatioTo(candidates[i], anchor);
      if InBand(ratio) {
        var dist := Abs(ratio - 1.0);
        if best.None? || dist < bestDist {
          bestDist := dist;
          best := Some(candidates[i]);
        }
      }
    }
    assert candidates[..|candidates|] == candidates;
    ClosestInIsClosest(candidates, anchor);
  }

  /** The loop with `break` in `_store_quarterly_result`. */
  method FindDivisor(pat: real, anchor: real) returns (patCr: Option<real>)
    ensures patCr == FirstMatch(pat, anchor)
  {
    var divisors := [1.0, LAKHS, RUPEES];
    patCr := None;
    var i := 0;
    while i < |divisors|
      invariant 0 <= i <= 3 && patCr == None
      invariant forall j | 0 <= j < i :: !InBand(RatioTo(Candidates(pat)[j], anchor))
    {
      var crores := pat / divisors[i];
      assert crores == Candidates(pat)[i] by {
        assert i == 0 || i == 1 || i == 2;
      }
      if InBand(RatioTo(crores, anchor)) {
        patCr := Some(crores);
        break;
      }
      i := i + 1;
    }
    assert Candidates(pat)[0] == pat && Candidates(pat)[1] == pat / LAKHS && Candidates(pat)[2] == pat / RUPEES;
  }
}
