/**
 The quarterly results table of src/db/models_quarterly.py: the upsert that keeps its unique
 key, and the row-limited, deduplicating query behind the forecast.

 Quarter ends are day numbers. The rows a query returns for equal quarter ends may come in any
 order; nothing below depends on it.
 */
module QuarterlyResults {
  import opened Containers

  datatype Metrics = Metrics(revenue: Option<real>, pat: Option<real>, ebitda: Option<real>, eps: Option<real>)

  datatype Row = Row(symbol: string, quarterEnd: int, source: string,
                     fiscalQuarter: int, fiscalYear: int, metrics: Metrics,
                     parseStatus: string, filingId: Option<string>)

  const SOURCE_PRIORITY: seq<string> := ["nse_xbrl", "bse_xbrl", "nse_pdf", "pipeline", "yfinance", "manual"]

  /** Place in the priority list, behind it for a source that is not listed. */
  function Priority(source: string): nat {
    PlaceIn(source, SOURCE_PRIORITY)
  }

  function PlaceIn(source: string, list: seq<string>): (i: nat)
    ensures i <= |list|
    ensures i < |list| ==> list[i] == source
    ensures i == |list| ==> source !in list
  {
    if list == [] then 0
    else if list[0] == source then 0
    else 1 + PlaceIn(source, list[1..])
  }

  predicate Known(source: string) {
    source in SOURCE_PRIORITY
  }

  ghost predicate AllKnown(rows: seq<Row>) {
    forall x <- rows :: Known(x.source)
  }

  /** What the database keeps unique. */
  datatype Key = Key(symbol: string, quarterEnd: int, source: string)

  function KeyOf(x: Row): Key {
    Key(x.symbol, x.quarterEnd, x.source)
  }

  predicate SameKey(a: Row, b: Row) {
    KeyOf(a) == KeyOf(b)
  }

  ghost predicate UniqueKey(rows: seq<Row>) {
    forall i, j | 0 <= i < j < |rows| :: !SameKey(rows[i], rows[j])
  }

  // ---------------------------------------------------------------- upsert

  function Given<T>(given: Option<T>, kept: Option<T>): Option<T> {
    if given.Some? then given else kept
  }

  /** The row with an update applied: a metric that is not given keeps its value. */
  function Merged(row: Row, u: Row): Row {
    row.(fiscalQuarter := u.fiscalQuarter, fiscalYear := u.fiscalYear,
          parseStatus := u.parseStatus, filingId := u.filingId,
          metrics := Metrics(Given(u.metrics.revenue, row.metrics.revenue), Given(u.metrics.pat, row.metrics.pat),
                             Given(u.metrics.ebitda, row.metrics.ebitda), Given(u.metrics.eps, row.metrics.eps)))
  }

  /** Index of the first row with the key of `u`, or the number of rows. */
  function FindKey(rows: seq<Row>, u: Row): (i: nat)
    ensures i <= |rows|
    ensures i < |rows| ==> SameKey(rows[i], u)
    ensures forall j | 0 <= j < i :: !SameKey(rows[j], u)
  {
    if rows == [] then 0 else if SameKey(rows[0], u) then 0 else 1 + FindKey(rows[1..], u)
  }

  function Upserted(rows: seq<Row>, u: Row): seq<Row> {
    var i := FindKey(rows, u);
    if i < |rows| then rows[i := Merged(rows[i], u)] else rows + [u]
  }

  function UpsertedAll(rows: seq<Row>, us: seq<Row>): seq<Row>
    decreases |us|
  {
    if us == [] then rows else UpsertedAll(Upserted(rows, us[0]), us[1..])
  }

  /** One upsert touches one row: the one with its key, which is there afterwards, once. */
  lemma UpsertTouchesOneKey(rows: seq<Row>, u: Row)
    requires UniqueKey(rows)
    ensures UniqueKey(Upserted(rows, u))
    ensures exists x <- Upserted(rows, u) :: SameKey(x, u)
    ensures forall x | !SameKey(x, u) :: x in Upserted(rows, u) <==> x in rows
  {
    var i, r := FindKey(rows, u), Upserted(rows, u);
    assert r[i] in r && SameKey(r[i], u);
    forall x | !SameKey(x, u) ensures x in r <==> x in rows {
      if x in rows {
        var k :| 0 <= k < |rows| && rows[k] == x;
        assert r[k] == x;
      }
      if x in r {
        var k :| 0 <= k < |r| && r[k] == x;
        assert k < |rows| && rows[k] == x;
      }
    }
  }

  /** An upsert made twice is an upsert made once. */
  lemma UpsertIdempotent(rows: seq<Row>, u: Row)
    ensures Upserted(Upserted(rows, u), u) == Upserted(rows, u)
  {
    var i, r := FindKey(rows, u), Upserted(rows, u);
    var k := FindKey(r, u);
    assert SameKey(r[i], u);
    assert forall j | 0 <= j < i :: r[j] == rows[j];
    assert k == i;
    assert Merged(r[i], u) == r[i];
  }

  lemma UpsertKeepsKnown(rows: seq<Row>, u: Row)
    requires AllKnown(rows) && Known(u.source)
    ensures AllKnown(Upserted(rows, u))
  {
    var r := Upserted(rows, u);
    forall x | x in r ensures Known(x.source) {
      var k :| 0 <= k < |r| && r[k] == x;
      if k < |rows| {
        assert rows[k] in rows && rows[k].source == x.source;
      }
    }
  }

  lemma {:induction false} UpsertsKeepUniqueKey(rows: seq<Row>, us: seq<Row>)
    requires UniqueKey(rows) && AllKnown(rows) && AllKnown(us)
    ensures UniqueKey(UpsertedAll(rows, us)) && AllKnown(UpsertedAll(rows, us))
    decreases |us|
  {
    if us != [] {
      UpsertTouchesOneKey(rows, us[0]);
      assert us[0] in us;
      UpsertKeepsKnown(rows, us[0]);
      UpsertsKeepUniqueKey(Upserted(rows, us[0]), us[1..]);
    }
  }

  datatype Which = Revenue | Pat | Ebitda | Eps

  function Metric(m: Metrics, which: Which): Option<real> {
    match which
    case Revenue => m.revenue
    case Pat => m.pat
    case Ebitda => m.ebitda
    case Eps => m.eps
  }

  /** The last update of a key. */
  function LastUpdate(us: seq<Row>, k: Key): (r: Option<Row>)
    ensures r.None? <==> forall u <- us :: KeyOf(u) != k
    ensures r.Some? ==> KeyOf(r.value) == k
  {
    if us == [] then None
    else
      var u, before := us[|us| - 1], us[..|us| - 1];
      assert us == before + [u];
      if KeyOf(u) == k then Some(u) else LastUpdate(before, k)
  }

  /** The last value that the updates of a key give for a metric. */
  function LastGiven(us: seq<Row>, k: Key, which: Which): (r: Option<real>)
    ensures r.Some? ==> LastUpdate(us, k).Some?
  {
    if us == [] then None
    else
      var u, before := us[|us| - 1], us[..|us| - 1];
      if KeyOf(u) == k && Metric(u.metrics, which).Some? then Metric(u.metrics, which)
      else LastGiven(before, k, which)
  }

  predicate SameProvenance(x: Row, u: Row) {
    && x.fiscalQuarter == u.fiscalQuarter && x.fiscalYear == u.fiscalYear
    && x.parseStatus == u.parseStatus && x.filingId == u.filingId
  }

  /** `x` is what the updates made of its key. */
  ghost predicate Reflects(us: seq<Row>, x: Row) {
    && LastUpdate(us, KeyOf(x)).Some?
    && SameProvenance(x, LastUpdate(us, KeyOf(x)).value)
    && forall which :: Metric(x.metrics, which) == LastGiven(us, KeyOf(x), which)
  }

  lemma {:induction false} UpsertedAllSnoc(rows: seq<Row>, us: seq<Row>, u: Row)
    ensures UpsertedAll(rows, us + [u]) == Upserted(UpsertedAll(rows, us), u)
    decreases |us|
  {
    if us == [] {
      assert us + [u] == [u];
      assert UpsertedAll(Upserted(rows, u), [u][1..]) == Upserted(rows, u);
    } else {
      assert (us + [u])[1..] == us[1..] + [u];
      UpsertedAllSnoc(Upserted(rows, us[0]), us[1..], u);
    }
  }

  /** The table holds, for every key upserted, exactly what the upserts of that key say. */
  lemma {:induction false} TableReflectsUpserts(us: seq<Row>)
    ensures forall x <- UpsertedAll([], us) :: Reflects(us, x)
    ensures forall u <- us :: exists x <- UpsertedAll([], us) :: SameKey(x, u)
    ensures UniqueKey(UpsertedAll([], us))
  {
    if us != [] {
      var before, u := us[..|us| - 1], us[|us| - 1];
      var t, r := UpsertedAll([], before), UpsertedAll([], us);
      assert us == before + [u];
      UpsertedAllSnoc([], before, u);
      TableReflectsUpserts(before);
      UpsertTouchesOneKey(t, u);
      forall x | x in r ensures Reflects(us, x) {
        UpsertedReflects(before, u, t, x);
      }
      forall v | v in us ensures exists x <- r :: SameKey(x, v) {
        if !SameKey(v, u) {
          assert v in before;
          var x :| x in t && SameKey(x, v);
          assert x in r;
        }
      }
    }
  }

  lemma UpsertedReflects(before: seq<Row>, u: Row, t: seq<Row>, x: Row)
    requires UniqueKey(t) && forall y <- t :: Reflects(before, y)
    requires forall v <- before :: exists y <- t :: SameKey(y, v)
    requires x in Upserted(t, u)
    ensures Reflects(before + [u], x)
  {
    var i, r := FindKey(t, u), Upserted(t, u);
    var k :| 0 <= k < |r| && r[k] == x;
    if k == i && i < |t| {
      assert t[i] in t;
      MergedReflects(before, u, t[i]);
    } else if k < |t| {
      assert x in t && !SameKey(t[k], u);
      OtherReflects(before, u, x);
    } else {
      NewReflects(before, u, t);
    }
  }

  lemma MergedReflects(before: seq<Row>, u: Row, y: Row)
    requires SameKey(y, u) && Reflects(before, y)
    ensures Reflects(before + [u], Merged(y, u))
  {
    var us, x := before + [u], Merged(y, u);
    assert us[..|before|] == before;
    forall which ensures Metric(x.metrics, which) == LastGiven(us, KeyOf(x), which) {
      assert Metric(y.metrics, which) == LastGiven(before, KeyOf(y), which);
    }
  }

  lemma OtherReflects(before: seq<Row>, u: Row, x: Row)
    requires !SameKey(x, u) && Reflects(before, x)
    ensures Reflects(before + [u], x)
  {
    var us := before + [u];
    assert us[..|before|] == before;
    forall which ensures Metric(x.metrics, which) == LastGiven(us, KeyOf(x), which) {
      assert Metric(x.metrics, which) == LastGiven(before, KeyOf(x), which);
    }
  }

  lemma NewReflects(before: seq<Row>, u: Row, t: seq<Row>)
    requires forall v <- before :: exists y <- t :: SameKey(y, v)
    requires forall i | 0 <= i < |t| :: !SameKey(t[i], u)
    ensures Reflects(before + [u], u)
  {
    var us := before + [u];
    assert us[..|before|] == before;
    assert LastUpdate(before, KeyOf(u)).None?;
    forall which ensures Metric(u.metrics, which) == LastGiven(us, KeyOf(u), which) {
      assert LastGiven(before, KeyOf(u), which).None?;
    }
  }

  // ---------------------------------------------------------------- year-on-year growth

  /** The columns `revenue_yoy_pct` and `pat_yoy_pct` of a row. */
  datatype Yoy = Yoy(revenue: Option<real>, pat: Option<real>)

  /** Growth in percent over a figure that is there and not zero; otherwise the column stays. */
  function Growth(now: Option<real>, prior: Option<real>, kept: Option<real>): Option<real> {
    if now.Some? && prior.Some? && prior.value != 0.0 then Some((now.value / prior.value - 1.0) * 100.0) else kept
  }

  /** A new growth figure leads from the prior figure back to the current one. */
  lemma GrowthLeadsBack(now: real, prior: real, kept: Option<real>)
    requires prior != 0.0
    ensures var g := Growth(Some(now), Some(prior), kept);
            g.Some? && prior * (1.0 + g.value / 100.0) == now
  {
    var ratio := now / prior;
    assert prior * ratio == now;
    assert 1.0 + (ratio - 1.0) * 100.0 / 100.0 == ratio;
  }

  predicate YearBefore(x: Row, u: Row) {
    x.symbol == u.symbol && x.fiscalQuarter == u.fiscalQuarter && x.fiscalYear == u.fiscalYear - 1
  }

  /** What the database may answer for the same quarter of the year before. */
  ghost predicate PriorAnswer(rows: seq<Row>, u: Row, prior: Option<Row>) {
    match prior
    case None => forall x <- rows :: !YearBefore(x, u)
    case Some(p) => p in rows && YearBefore(p, u)
  }

  function YoyAfter(row: Row, prior: Option<Row>, kept: Yoy): Yoy {
    if prior.None? then kept
    else Yoy(Growth(row.metrics.revenue, prior.value.metrics.revenue, kept.revenue),
             Growth(row.metrics.pat, prior.value.metrics.pat, kept.pat))
  }

  predicate LeadsBack(now: Option<real>, prior: Option<real>, kept: Option<real>, column: Option<real>) {
    if now.Some? && prior.Some? && prior.value != 0.0
    then column.Some? && prior.value * (1.0 + column.value / 100.0) == now.value
    else column == kept
  }

  /** Each column leads from the same figure of the year before to the row's own, or stays as it was
      when one of them is missing or the earlier one is zero. */
  predicate ColumnsLeadBack(row: Row, prior: Option<Row>, kept: Yoy, columns: Yoy) {
    if prior.None? then columns == kept
    else && LeadsBack(row.metrics.revenue, prior.value.metrics.revenue, kept.revenue, columns.revenue)
         && LeadsBack(row.metrics.pat, prior.value.metrics.pat, kept.pat, columns.pat)
  }

  lemma YoyLeadsBack(row: Row, prior: Option<Row>, kept: Yoy)
    ensures ColumnsLeadBack(row, prior, kept, YoyAfter(row, prior, kept))
  {
    if prior.Some? {
      GrowthLeads(row.metrics.revenue, prior.value.metrics.revenue, kept.revenue);
      GrowthLeads(row.metrics.pat, prior.value.metrics.pat, kept.pat);
    }
  }

  lemma GrowthLeads(now: Option<real>, prior: Option<real>, kept: Option<real>)
    ensures LeadsBack(now, prior, kept, Growth(now, prior, kept))
  {
    if now.Some? && prior.Some? && prior.value != 0.0 {
      GrowthLeadsBack(now.value, prior.value, kept);
    }
  }

  function YoyOf(yoy: map<Key, Yoy>, k: Key): Yoy {
    if k in yoy then yoy[k] else Yoy(None, None)
  }

  // ---------------------------------------------------------------- what the query should return

  predicate Ascending(r: seq<Row>) {
    forall i, j | 0 <= i < j < |r| :: r[i].quarterEnd < r[j].quarterEnd
  }

  ghost predicate HasQuarter(r: seq<Row>, q: int) {
    exists i :: 0 <= i < |r| && r[i].quarterEnd == q
  }

  /** `x` is a row of `rows` whose source no row of the same symbol and quarter beats. */
  ghost predicate BestIn(rows: seq<Row>, x: Row) {
    && x in rows
    && forall y | y in rows && y.symbol == x.symbol && y.quarterEnd == x.quarterEnd ::
         Priority(x.source) <= Priority(y.source)
  }

  /** `r` is the `n` most recent quarters of the symbol in ascending order, each with its best row:
      any other quarter is older than all of them, and then there are `n`. */
  ghost predicate MostRecent(rows: seq<Row>, symbol: string, n: nat, r: seq<Row>) {
    && |r| <= n
    && Ascending(r)
    && (forall x <- r :: x.symbol == symbol && BestIn(rows, x))
    && (forall y | y in rows && y.symbol == symbol && !HasQuarter(r, y.quarterEnd) ::
          |r| == n && forall x <- r :: y.quarterEnd < x.quarterEnd)
  }

  lemma PriorityInjective(a: string, b: string)
    requires Known(a) && Known(b) && Priority(a) == Priority(b)
    ensures a == b
  {
  }

  ghost function Quarters(r: seq<Row>): set<int> {
    set i | 0 <= i < |r| :: r[i].quarterEnd
  }

  lemma QuartersHas(r: seq<Row>, q: int)
    ensures q in Quarters(r) <==> HasQuarter(r, q)
  {
  }

  lemma {:induction false} AscendingCount(r: seq<Row>)
    requires Ascending(r)
    ensures |Quarters(r)| == |r|
  {
    if r != [] {
      var n := |r| - 1;
      AscendingCount(r[..n]);
      assert Quarters(r) == Quarters(r[..n]) + {r[n].quarterEnd};
      assert r[n].quarterEnd !in Quarters(r[..n]);
    }
  }

  lemma SubsetSize(a: set<int>, b: set<int>)
    requires a <= b
    ensures |a| <= |b|
  {
    assert b == a + (b - a);
  }

  /** A quarter of one list is a quarter of the other, or older than every quarter of it. */
  lemma InOrOlder(rows: seq<Row>, symbol: string, n: nat, a: seq<Row>, b: seq<Row>, q: int)
    requires MostRecent(rows, symbol, n, a) && MostRecent(rows, symbol, n, b) && q in Quarters(a)
    ensures q in Quarters(b) || (|b| == n && forall p <- Quarters(b) :: q < p)
  {
    var i :| 0 <= i < |a| && a[i].quarterEnd == q;
    assert a[i] in a && a[i] in rows;
    QuartersHas(b, q);
  }

  lemma QuartersIncluded(rows: seq<Row>, symbol: string, n: nat, a: seq<Row>, b: seq<Row>)
    requires MostRecent(rows, symbol, n, a) && MostRecent(rows, symbol, n, b)
    ensures Quarters(a) <= Quarters(b)
  {
    forall q | q in Quarters(a) ensures q in Quarters(b) {
      InOrOlder(rows, symbol, n, a, b, q);
      if q !in Quarters(b) {
        forall p | p in Quarters(b) ensures p in Quarters(a) {
          InOrOlder(rows, symbol, n, b, a, p);
        }
        AscendingCount(a);
        AscendingCount(b);
        SubsetSize(Quarters(b) + {q}, Quarters(a));
        assert false;
      }
    }
  }

  lemma {:induction false} SameQuartersSameOrder(a: seq<Row>, b: seq<Row>)
    requires Ascending(a) && Ascending(b) && Quarters(a) == Quarters(b)
    ensures |a| == |b| && forall i | 0 <= i < |a| :: a[i].quarterEnd == b[i].quarterEnd
  {
    AscendingCount(a);
    AscendingCount(b);
    if a != [] {
      var n := |a| - 1;
      assert a[n].quarterEnd in Quarters(b) && b[n].quarterEnd in Quarters(a);
      var i :| 0 <= i < |b| && b[i].quarterEnd == a[n].quarterEnd;
      var j :| 0 <= j < |a| && a[j].quarterEnd == b[n].quarterEnd;
      assert Quarters(a[..n]) == Quarters(a) - {a[n].quarterEnd};
      assert Quarters(b[..n]) == Quarters(b) - {b[n].quarterEnd};
      SameQuartersSameOrder(a[..n], b[..n]);
      assert forall k | 0 <= k < n :: a[k] == a[..n][k] && b[k] == b[..n][k];
    }
  }

  /** With the unique key and known sources there is only one such list. */
  lemma MostRecentIsUnique(rows: seq<Row>, symbol: string, n: nat, a: seq<Row>, b: seq<Row>)
    requires UniqueKey(rows) && AllKnown(rows)
    requires MostRecent(rows, symbol, n, a) && MostRecent(rows, symbol, n, b)
    ensures a == b
  {
    QuartersIncluded(rows, symbol, n, a, b);
    QuartersIncluded(rows, symbol, n, b, a);
    SameQuartersSameOrder(a, b);
    forall i | 0 <= i < |a| ensures a[i] == b[i] {
      assert a[i] in a && b[i] in b;
      BestIsUnique(rows, a[i], b[i]);
    }
  }

  lemma BestIsUnique(rows: seq<Row>, x: Row, y: Row)
    requires UniqueKey(rows) && AllKnown(rows)
    requires BestIn(rows, x) && BestIn(rows, y) && x.symbol == y.symbol && x.quarterEnd == y.quarterEnd
    ensures x == y
  {
    PriorityInjective(x.source, y.source);
    var j :| 0 <= j < |rows| && rows[j] == x;
    var k :| 0 <= k < |rows| && rows[k] == y;
    assert SameKey(rows[j], rows[k]);
  }

  // ---------------------------------------------------------------- the row limit

  function OfSymbol(rows: seq<Row>, symbol: string): (r: seq<Row>)
    ensures forall x :: x in r <==> x in rows && x.symbol == symbol
  {
    if rows == [] then []
    else (if rows[0].symbol == symbol then [rows[0]] else []) + OfSymbol(rows[1..], symbol)
  }

  function WithQuarter(rows: seq<Row>, q: int): (r: seq<Row>)
    ensures forall x :: x in r <==> x in rows && x.quarterEnd == q
    ensures |r| <= |rows|
  {
    if rows == [] then []
    else (if rows[0].quarterEnd == q then [rows[0]] else []) + WithQuarter(rows[1..], q)
  }

  function WithoutQuarter(rows: seq<Row>, q: int): (r: seq<Row>)
    ensures forall x :: x in r <==> x in rows && x.quarterEnd != q
    ensures |r| + |WithQuarter(rows, q)| == |rows|
  {
    if rows == [] then []
    else (if rows[0].quarterEnd != q then [rows[0]] else []) + WithoutQuarter(rows[1..], q)
  }

  /** As many rows a quarter as there are sources. */
  const ROWS_PER_QUARTER := 6

  ghost predicate AtMostSix(rows: seq<Row>) {
    forall q :: |WithQuarter(rows, q)| <= ROWS_PER_QUARTER
  }

  lemma {:induction false} WithQuarterJoin(a: seq<Row>, b: seq<Row>, q: int)
    ensures WithQuarter(a + b, q) == WithQuarter(a, q) + WithQuarter(b, q)
  {
    if a == [] {
      assert a + b == b;
    } else {
      assert (a + b)[1..] == a[1..] + b;
      WithQuarterJoin(a[1..], b, q);
    }
  }

  lemma {:induction false} WithQuarterOfOthers(rows: seq<Row>, p: int, q: int)
    ensures WithQuarter(WithoutQuarter(rows, q), p) == if p == q then [] else WithQuarter(rows, p)
  {
    if rows != [] {
      WithQuarterOfOthers(rows[1..], p, q);
      WithQuarterJoin(if rows[0].quarterEnd != q then [rows[0]] else [], WithoutQuarter(rows[1..], q), p);
    }
  }

  lemma OthersAtMostSix(rows: seq<Row>, q: int)
    requires AtMostSix(rows)
    ensures AtMostSix(WithoutQuarter(rows, q))
  {
    forall p ensures |WithQuarter(WithoutQuarter(rows, q), p)| <= ROWS_PER_QUARTER {
      WithQuarterOfOthers(rows, p, q);
      assert |WithQuarter(rows, p)| <= ROWS_PER_QUARTER;
    }
  }

  lemma InQuarters(rows: seq<Row>, x: Row)
    requires x in rows
    ensures x.quarterEnd in Quarters(rows)
  {
  }

  lemma OthersQuarters(rows: seq<Row>, q: int)
    ensures Quarters(WithoutQuarter(rows, q)) == Quarters(rows) - {q}
  {
    var others := WithoutQuarter(rows, q);
    forall p | p in Quarters(others) ensures p in Quarters(rows) - {q} {
      var i :| 0 <= i < |others| && others[i].quarterEnd == p;
      assert others[i] in others;
      InQuarters(rows, others[i]);
    }
    forall p | p in Quarters(rows) - {q} ensures p in Quarters(others) {
      var i :| 0 <= i < |rows| && rows[i].quarterEnd == p;
      assert rows[i] in rows;
      InQuarters(others, rows[i]);
    }
  }

  /** Rows cannot outnumber six times their quarters. */
  lemma {:induction false} Pigeonhole(rows: seq<Row>)
    requires AtMostSix(rows)
    ensures |rows| <= ROWS_PER_QUARTER * |Quarters(rows)|
    decreases |rows|
  {
    if rows != [] {
      var q := rows[0].quarterEnd;
      assert rows[0] in WithQuarter(rows, q) && q in Quarters(rows);
      OthersAtMostSix(rows, q);
      OthersQuarters(rows, q);
      Pigeonhole(WithoutQuarter(rows, q));
    }
  }

  ghost predicate Descending(o: seq<Row>) {
    forall i, j | 0 <= i < j < |o| :: o[i].quarterEnd >= o[j].quarterEnd
  }

  // ---------------------------------------------------------------- the query

  /** What the database may return for the symbol, newest quarter first. */
  ghost predicate Answers(rows: seq<Row>, symbol: string, o: seq<Row>) {
    Descending(o) && multiset(o) == multiset(OfSymbol(rows, symbol))
  }

  lemma AnswersMembers(rows: seq<Row>, symbol: string, o: seq<Row>)
    requires Answers(rows, symbol, o)
    ensures forall x :: x in o <==> x in rows && x.symbol == symbol
  {
    assert forall x :: x in o <==> x in multiset(o);
    assert forall x :: x in OfSymbol(rows, symbol) <==> x in multiset(OfSymbol(rows, symbol));
  }

  lemma {:induction false} WithQuarterCount(rows: seq<Row>, q: int, x: Row)
    ensures multiset(WithQuarter(rows, q))[x] == if x.quarterEnd == q then multiset(rows)[x] else 0
  {
    if rows != [] {
      assert rows == [rows[0]] + rows[1..];
      WithQuarterCount(rows[1..], q, x);
    }
  }

  // ---------------------------------------------------------------- six known sources

  ghost predicate OneKey(rows: seq<Row>) {
    forall x, y | x in rows && y in rows :: x.symbol == y.symbol && x.quarterEnd == y.quarterEnd
  }

  ghost function Sources(rows: seq<Row>): set<string> {
    set i | 0 <= i < |rows| :: rows[i].source
  }

  lemma {:induction false} ListSize(list: seq<string>)
    ensures |set x | x in list| <= |list|
  {
    if list != [] {
      ListSize(list[1..]);
      assert (set x | x in list) == {list[0]} + set x | x in list[1..];
    }
  }

  lemma {:induction false} SourcesDiffer(rows: seq<Row>)
    requires UniqueKey(rows) && OneKey(rows)
    ensures |Sources(rows)| == |rows|
  {
    if rows != [] {
      var rest := rows[1..];
      assert forall x | x in rest :: x in rows;
      assert UniqueKey(rest);
      SourcesDiffer(rest);
      assert forall i | 0 <= i < |rest| :: !SameKey(rows[0], rest[i]) && rest[i] in rows && rows[0] in rows;
      assert rows[0].source !in Sources(rest);
      SourcesSnoc(rows);
    }
  }

  lemma SourcesSnoc(rows: seq<Row>)
    requires rows != []
    ensures Sources(rows) == {rows[0].source} + Sources(rows[1..])
  {
    forall s | s in Sources(rows) ensures s in {rows[0].source} + Sources(rows[1..]) {
      var i :| 0 <= i < |rows| && rows[i].source == s;
      if i > 0 {
        assert rows[1..][i - 1].source == s;
      }
    }
    forall s | s in Sources(rows[1..]) ensures s in Sources(rows) {
      var i :| 0 <= i < |rows[1..]| && rows[1..][i].source == s;
      assert rows[i + 1].source == s;
    }
  }

  lemma {:induction false} SymbolKeepsKey(rows: seq<Row>, symbol: string)
    requires UniqueKey(rows)
    ensures UniqueKey(OfSymbol(rows, symbol))
  {
    if rows != [] {
      SymbolKeepsKey(rows[1..], symbol);
      var rest := OfSymbol(rows[1..], symbol);
      assert forall i | 0 <= i < |rest| :: rest[i] in rest && rest[i] in rows[1..];
    }
  }

  lemma {:induction false} QuarterKeepsKey(rows: seq<Row>, q: int)
    requires UniqueKey(rows)
    ensures UniqueKey(WithQuarter(rows, q))
  {
    if rows != [] {
      QuarterKeepsKey(rows[1..], q);
      var rest := WithQuarter(rows[1..], q);
      assert forall i | 0 <= i < |rest| :: rest[i] in rest && rest[i] in rows[1..];
    }
  }

  /** With the unique key, a quarter of a symbol has at most one row for each known source. */
  lemma KnownSourcesAtMostSix(rows: seq<Row>, symbol: string)
    requires UniqueKey(rows) && AllKnown(rows)
    ensures AtMostSix(OfSymbol(rows, symbol))
  {
    SymbolKeepsKey(rows, symbol);
    forall q ensures |WithQuarter(OfSymbol(rows, symbol), q)| <= ROWS_PER_QUARTER {
      var here := WithQuarter(OfSymbol(rows, symbol), q);
      QuarterKeepsKey(OfSymbol(rows, symbol), q);
      assert AllKnown(here);
      KnownSourcesAreSix(here);
    }
  }

  lemma KnownSourcesAreSix(here: seq<Row>)
    requires UniqueKey(here) && OneKey(here) && AllKnown(here)
    ensures |here| <= ROWS_PER_QUARTER
  {
    SourcesDiffer(here);
    ListSize(SOURCE_PRIORITY);
    var known := set x | x in SOURCE_PRIORITY;
    forall s | s in Sources(here) ensures s in known {
      var i :| 0 <= i < |here| && here[i].source == s;
      assert here[i] in here;
    }
    assert known == Sources(here) + (known - Sources(here));
  }

  // ---------------------------------------------------------------- the query itself

  /** Row `i` has the best source of its quarter, and is the first with that. */
  ghost predicate FirstBestAt(kept: seq<Row>, i: int) {
    && 0 <= i < |kept|
    && forall j | 0 <= j < |kept| && kept[j].quarterEnd == kept[i].quarterEnd ::
         if j < i then Priority(kept[i].source) < Priority(kept[j].source)
         else Priority(kept[i].source) <= Priority(kept[j].source)
  }

  ghost predicate FirstBest(kept: seq<Row>, x: Row) {
    exists i :: FirstBestAt(kept, i) && kept[i] == x
  }

  /** `all` has one row for each quarter of `kept`, its first best, oldest quarter first. */
  ghost predicate BestOfEach(kept: seq<Row>, all: seq<Row>) {
    && Ascending(all)
    && Quarters(all) == Quarters(kept)
    && forall x <- all :: FirstBest(kept, x)
  }

  function Limited(o: seq<Row>, n: nat): (kept: seq<Row>) {
    if |o| > ROWS_PER_QUARTER * n then o[..ROWS_PER_QUARTER * n] else o
  }

  function Last(all: seq<Row>, n: nat): (r: seq<Row>) {
    if |all| > n then all[|all| - n..] else all
  }

  lemma BestOfEachIsBest(kept: seq<Row>, all: seq<Row>)
    requires BestOfEach(kept, all)
    ensures forall x <- all :: BestIn(kept, x)
  {
    forall x | x in all ensures BestIn(kept, x) {
      var i :| FirstBestAt(kept, i) && kept[i] == x;
      forall y | y in kept && y.symbol == x.symbol && y.quarterEnd == x.quarterEnd
        ensures Priority(x.source) <= Priority(y.source) {
        var j :| 0 <= j < |kept| && kept[j] == y;
      }
    }
  }

  /** `sorted(rows, key=quarter_end)` for one row a quarter: `x` goes before the first later one. */
  function Inserted(r: seq<Row>, x: Row): (s: seq<Row>)
    ensures forall y :: y in s <==> y in r || y == x
  {
    if r == [] then [x]
    else if x.quarterEnd < r[0].quarterEnd then [x] + r
    else [r[0]] + Inserted(r[1..], x)
  }

  lemma {:induction false} InsertedAscends(r: seq<Row>, x: Row)
    requires Ascending(r) && x.quarterEnd !in Quarters(r)
    ensures Ascending(Inserted(r, x))
    ensures Quarters(Inserted(r, x)) == Quarters(r) + {x.quarterEnd}
  {
    var s := Inserted(r, x);
    if r != [] && x.quarterEnd >= r[0].quarterEnd {
      assert forall q | q in Quarters(r[1..]) :: q in Quarters(r) by {
        forall q | q in Quarters(r[1..]) ensures q in Quarters(r) {
          var i :| 0 <= i < |r[1..]| && r[1..][i].quarterEnd == q;
          InQuarters(r, r[i + 1]);
        }
      }
      InsertedAscends(r[1..], x);
      var t := Inserted(r[1..], x);
      forall i | 0 <= i < |t| ensures r[0].quarterEnd < t[i].quarterEnd {
        assert t[i] in t;
        InQuarters(r, r[0]);
      }
    }
    InsertedQuarters(r, x);
  }

  lemma InsertedQuarters(r: seq<Row>, x: Row)
    ensures Quarters(Inserted(r, x)) == Quarters(r) + {x.quarterEnd}
  {
    var s := Inserted(r, x);
    forall q | q in Quarters(s) ensures q in Quarters(r) + {x.quarterEnd} {
      var i :| 0 <= i < |s| && s[i].quarterEnd == q;
      assert s[i] in s;
      if s[i] in r {
        InQuarters(r, s[i]);
      }
    }
    forall q | q in Quarters(r) + {x.quarterEnd} ensures q in Quarters(s) {
      if q in Quarters(r) {
        var i :| 0 <= i < |r| && r[i].quarterEnd == q;
        assert r[i] in r;
        InQuarters(s, r[i]);
      } else {
        InQuarters(s, x);
      }
    }
  }

  /** The `best` dict after some rows. */
  function BestAfter(kept: seq<Row>): map<int, Row> {
    if kept == [] then map[] else BestStep(BestAfter(kept[..|kept| - 1]), kept[|kept| - 1])
  }

  function BestStep(best: map<int, Row>, x: Row): map<int, Row> {
    if x.quarterEnd !in best then best[x.quarterEnd := x]
    else if Priority(x.source) < Priority(best[x.quarterEnd].source) then best[x.quarterEnd := x]
    else best
  }

  /** For each quarter seen, its first best row. */
  ghost predicate BestSoFar(kept: seq<Row>, best: map<int, Row>) {
    && best.Keys == Quarters(kept)
    && forall q <- best :: best[q].quarterEnd == q && FirstBest(kept, best[q])
  }

  lemma {:induction false} BestAfterIsBest(kept: seq<Row>)
    ensures BestSoFar(kept, BestAfter(kept))
  {
    if kept != [] {
      var before := kept[..|kept| - 1];
      BestAfterIsBest(before);
      BestStepKeeps(before, BestAfter(before), kept[|kept| - 1]);
      assert kept == before + [kept[|kept| - 1]];
    }
  }

  lemma QuartersSnoc(kept: seq<Row>, x: Row)
    ensures Quarters(kept + [x]) == Quarters(kept) + {x.quarterEnd}
  {
    var s := kept + [x];
    forall q | q in Quarters(kept) + {x.quarterEnd} ensures q in Quarters(s) {
      if q == x.quarterEnd {
        assert s[|kept|] == x;
      } else {
        var i :| 0 <= i < |kept| && kept[i].quarterEnd == q;
        assert s[i].quarterEnd == q;
      }
    }
  }

  lemma BestStepKeeps(kept: seq<Row>, best: map<int, Row>, x: Row)
    requires BestSoFar(kept, best)
    ensures BestSoFar(kept + [x], BestStep(best, x))
  {
    var s, b, q := kept + [x], BestStep(best, x), x.quarterEnd;
    QuartersSnoc(kept, x);
    forall p | p in b ensures b[p].quarterEnd == p && FirstBest(s, b[p]) {
      if p != q || (p in best && Priority(best[p].source) <= Priority(x.source)) {
        BestStays(kept, x, best[p]);
      } else {
        BestComes(kept, best, x);
      }
    }
  }

  lemma BestStays(kept: seq<Row>, x: Row, y: Row)
    requires FirstBest(kept, y)
    requires x.quarterEnd == y.quarterEnd ==> Priority(y.source) <= Priority(x.source)
    ensures FirstBest(kept + [x], y)
  {
    var i :| FirstBestAt(kept, i) && kept[i] == y;
    assert FirstBestAt(kept + [x], i);
  }

  lemma BestComes(kept: seq<Row>, best: map<int, Row>, x: Row)
    requires BestSoFar(kept, best)
    requires x.quarterEnd in best ==> Priority(x.source) < Priority(best[x.quarterEnd].source)
    ensures FirstBest(kept + [x], x)
  {
    forall j | 0 <= j < |kept| && kept[j].quarterEnd == x.quarterEnd
      ensures Priority(x.source) < Priority(kept[j].source)
    {
      InQuarters(kept, kept[j]);
      var i :| FirstBestAt(kept, i) && kept[i] == best[x.quarterEnd];
    }
    assert FirstBestAt(kept + [x], |kept|);
  }

  // ---------------------------------------------------------------- when the row limit is enough

  ghost function Newer(quarters: set<int>, q: int): set<int> {
    set p | p in quarters && p > q
  }

  /** `q` is one of the n most recent quarters. */
  ghost predicate Recent(s: seq<Row>, n: nat, q: int) {
    q in Quarters(s) && |Newer(Quarters(s), q)| < n
  }

  /** A row that the database may return before every best row of quarter `q`. */
  ghost predicate Blocks(s: seq<Row>, q: int, x: Row) {
    x.quarterEnd > q || (x.quarterEnd == q && !BestIn(s, x))
  }

  ghost function Blockers(list: seq<Row>, s: seq<Row>, q: int): (r: seq<Row>)
    ensures forall x :: x in r <==> x in list && Blocks(s, q, x)
  {
    if list == [] then []
    else (if Blocks(s, q, list[0]) then [list[0]] else []) + Blockers(list[1..], s, q)
  }

  /** The row limit keeps a best row of each of the n most recent quarters: fewer than 6n rows are
      newer than such a quarter or not its best. */
  ghost predicate CutSafe(rows: seq<Row>, symbol: string, n: nat) {
    var s := OfSymbol(rows, symbol);
    forall q | Recent(s, n, q) :: |Blockers(s, s, q)| < ROWS_PER_QUARTER * n
  }

  /** The query is right in whichever order the database returns rows of one quarter. */
  ghost predicate AlwaysRight(rows: seq<Row>, symbol: string, n: nat) {
    forall o, all | Answers(rows, symbol, o) && BestOfEach(Limited(o, n), all) ::
      MostRecent(rows, symbol, n, Last(all, n))
  }

  lemma {:induction false} BlockersCount(list: seq<Row>, s: seq<Row>, q: int, x: Row)
    ensures multiset(Blockers(list, s, q))[x] == if Blocks(s, q, x) then multiset(list)[x] else 0
  {
    if list != [] {
      assert list == [list[0]] + list[1..];
      BlockersCount(list[1..], s, q, x);
    }
  }

  lemma SameBlockers(a: seq<Row>, b: seq<Row>, s: seq<Row>, q: int)
    requires multiset(a) == multiset(b)
    ensures |Blockers(a, s, q)| == |Blockers(b, s, q)|
  {
    forall x ensures multiset(Blockers(a, s, q))[x] == multiset(Blockers(b, s, q))[x] {
      BlockersCount(a, s, q, x);
      BlockersCount(b, s, q, x);
    }
    assert multiset(Blockers(a, s, q)) == multiset(Blockers(b, s, q));
    assert |multiset(Blockers(a, s, q))| == |multiset(Blockers(b, s, q))|;
  }

  /** If a whole prefix blocks, the list has at least as many blockers. */
  lemma {:induction false} PrefixBlocks(list: seq<Row>, m: nat, s: seq<Row>, q: int)
    requires m <= |list| && forall i | 0 <= i < m :: Blocks(s, q, list[i])
    ensures |Blockers(list, s, q)| >= m
  {
    if m > 0 {
      PrefixBlocks(list[1..], m - 1, s, q);
    }
  }

  lemma BestRow(s: seq<Row>, q: int) returns (x: Row)
    requires q in Quarters(s)
    ensures x.quarterEnd == q && BestIn(s, x)
  {
    BestAfterIsBest(s);
    x := BestAfter(s)[q];
    var i :| FirstBestAt(s, i) && s[i] == x;
    forall y | y in s && y.symbol == x.symbol && y.quarterEnd == x.quarterEnd
      ensures Priority(x.source) <= Priority(y.source)
    {
      var j :| 0 <= j < |s| && s[j] == y;
    }
  }

  /** With few enough blockers a best row of the quarter survives the cut. */
  lemma BestSurvives(s: seq<Row>, o: seq<Row>, m: nat, q: int) returns (x: Row)
    requires Descending(o) && multiset(o) == multiset(s)
    requires q in Quarters(s) && |Blockers(s, s, q)| < m
    ensures x in (if |o| > m then o[..m] else o) && x.quarterEnd == q && BestIn(s, x)
  {
    x := BestRow(s, q);
    assert x in multiset(s) && x in multiset(o);
    var k :| 0 <= k < |o| && o[k] == x;
    if |o| > m && k >= m {
      SameBlockers(o, s, s, q);
      if forall i | 0 <= i < m :: Blocks(s, q, o[i]) {
        PrefixBlocks(o, m, s, q);
        assert false;
      }
      var i :| 0 <= i < m && !Blocks(s, q, o[i]);
      assert o[i].quarterEnd >= o[k].quarterEnd;
      x := o[i];
      assert o[..m][i] == x;
    } else if |o| > m {
      assert o[..m][k] == x;
    }
  }

  lemma BestInSymbol(rows: seq<Row>, symbol: string, x: Row)
    requires x.symbol == symbol
    ensures BestIn(OfSymbol(rows, symbol), x) <==> BestIn(rows, x)
  {
  }

  lemma NewerSubset(a: set<int>, b: set<int>, p: int, q: int)
    requires Newer(a, p) <= Newer(b, q)
    ensures |Newer(a, p)| <= |Newer(b, q)|
  {
    SubsetSize(Newer(a, p), Newer(b, q));
  }

  /** When the n most recent quarters are kept, a quarter that is not has n newer ones kept. */
  lemma {:induction false} MissingHasNewer(quarters: set<int>, kept: set<int>, n: nat, p: int)
    requires forall q | q in quarters && |Newer(quarters, q)| < n :: q in kept
    requires p in quarters && p !in kept
    ensures |Newer(kept, p)| >= n
    decreases |Newer(quarters, p)|
  {
    if Newer(quarters, p) <= Newer(kept, p) {
      NewerSubset(quarters, kept, p, p);
    } else {
      var r :| r in Newer(quarters, p) && r !in Newer(kept, p);
      assert Newer(quarters, p) == Newer(quarters, r) + (Newer(quarters, p) - Newer(quarters, r));
      assert r in Newer(quarters, p) - Newer(quarters, r);
      MissingHasNewer(quarters, kept, n, r);
      NewerSubset(kept, kept, r, p);
    }
  }

  /** Newer quarters kept are all the newer quarters, when there are fewer than n of them. */
  lemma FewNewerKept(quarters: set<int>, kept: set<int>, n: nat, q: int)
    requires forall p | p in quarters && |Newer(quarters, p)| < n :: p in kept
    requires |Newer(kept, q)| < n
    ensures |Newer(quarters, q)| < n
  {
    if p :| p in Newer(quarters, q) && p !in kept {
      MissingHasNewer(quarters, kept, n, p);
      NewerSubset(kept, kept, p, q);
      assert false;
    }
    NewerSubset(quarters, kept, q, q);
  }

  lemma NewerInTail(all: seq<Row>, i: nat)
    requires Ascending(all) && i < |all|
    ensures |Newer(Quarters(all), all[i].quarterEnd)| == |all| - 1 - i
  {
    var tail := all[i + 1..];
    AscendingCount(tail);
    forall p | p in Newer(Quarters(all), all[i].quarterEnd) ensures p in Quarters(tail) {
      var j :| 0 <= j < |all| && all[j].quarterEnd == p;
      assert j > i && tail[j - i - 1] == all[j];
    }
    forall p | p in Quarters(tail) ensures p in Newer(Quarters(all), all[i].quarterEnd) {
      var j :| 0 <= j < |tail| && tail[j].quarterEnd == p;
      assert all[i + 1 + j] == tail[j];
    }
    assert Newer(Quarters(all), all[i].quarterEnd) == Quarters(tail);
  }

  lemma OlderThanTail(all: seq<Row>, base: nat, q: int)
    requires Ascending(all) && base <= |all| && q in Quarters(all)
    requires forall i | base <= i < |all| :: all[i].quarterEnd != q
    ensures base > 0 && forall i | base <= i < |all| :: q < all[i].quarterEnd
  {
    var i :| 0 <= i < |all| && all[i].quarterEnd == q;
    assert i < base;
  }

  /** A quarter with n newer ones in the list is older than the last n of it. */
  lemma OlderThanLast(all: seq<Row>, n: nat, q: int)
    requires Ascending(all) && q !in Quarters(all) && |Newer(Quarters(all), q)| >= n
    ensures |all| >= n && forall i | |all| - n <= i < |all| :: q < all[i].quarterEnd
  {
    AscendingCount(all);
    SubsetSize(Newer(Quarters(all), q), Quarters(all));
    forall i | |all| - n <= i < |all| ensures q < all[i].quarterEnd {
      NewerInTail(all, i);
      assert all[i].quarterEnd in Quarters(all);
      if all[i].quarterEnd < q {
        NewerSubset(Quarters(all), Quarters(all), q, all[i].quarterEnd);
      }
    }
  }

  /** What the query fetched has the n most recent quarters, each with a best row. */
  ghost predicate KeepsRecent(s: seq<Row>, n: nat, kept: seq<Row>) {
    && (forall x <- kept :: x in s)
    && forall q | Recent(s, n, q) :: HasBest(s, kept, q)
  }

  ghost predicate HasBest(s: seq<Row>, kept: seq<Row>, q: int) {
    exists x :: x in kept && x.quarterEnd == q && BestIn(s, x)
  }

  lemma CutKeepsRecent(rows: seq<Row>, symbol: string, n: nat, o: seq<Row>)
    requires Answers(rows, symbol, o) && CutSafe(rows, symbol, n)
    ensures KeepsRecent(OfSymbol(rows, symbol), n, Limited(o, n))
  {
    var s := OfSymbol(rows, symbol);
    AnswersMembers(rows, symbol, o);
    forall q | Recent(s, n, q) ensures HasBest(s, Limited(o, n), q) {
      var x := BestSurvives(s, o, ROWS_PER_QUARTER * n, q);
    }
  }

  lemma RecentQuartersKept(s: seq<Row>, n: nat, kept: seq<Row>)
    requires KeepsRecent(s, n, kept)
    ensures forall q | q in Quarters(s) && |Newer(Quarters(s), q)| < n :: q in Quarters(kept)
    ensures Quarters(kept) <= Quarters(s)
  {
    forall q | q in Quarters(s) && |Newer(Quarters(s), q)| < n ensures q in Quarters(kept) {
      assert Recent(s, n, q) && HasBest(s, kept, q);
      var x :| x in kept && x.quarterEnd == q && BestIn(s, x);
      InQuarters(kept, x);
    }
    forall q | q in Quarters(kept) ensures q in Quarters(s) {
      var i :| 0 <= i < |kept| && kept[i].quarterEnd == q;
      assert kept[i] in kept;
      InQuarters(s, kept[i]);
    }
  }

  /** A returned row is of a recent quarter, and the best there is. */
  lemma ReturnedIsBest(s: seq<Row>, symbol: string, n: nat, kept: seq<Row>, all: seq<Row>, i: nat)
    requires KeepsRecent(s, n, kept) && BestOfEach(kept, all)
    requires i < |all| && i >= |all| - n
    requires forall x <- s :: x.symbol == symbol
    ensures BestIn(s, all[i]) && all[i].symbol == symbol
  {
    var q := all[i].quarterEnd;
    RecentQuartersKept(s, n, kept);
    NewerInTail(all, i);
    FewNewerKept(Quarters(s), Quarters(kept), n, q);
    BestOfEachIsBest(kept, all);
    assert all[i] in all && all[i] in kept;
    InQuarters(kept, all[i]);
    assert Recent(s, n, q) && HasBest(s, kept, q);
    var x :| x in kept && x.quarterEnd == q && BestIn(s, x);
    assert Priority(all[i].source) <= Priority(x.source);
  }

  /** A quarter that is not returned is older than all that are. */
  lemma OthersAreOlder(s: seq<Row>, n: nat, kept: seq<Row>, all: seq<Row>, y: Row)
    requires KeepsRecent(s, n, kept) && BestOfEach(kept, all) && y in s
    requires !HasQuarter(Last(all, n), y.quarterEnd)
    ensures |Last(all, n)| == n && forall x <- Last(all, n) :: y.quarterEnd < x.quarterEnd
  {
    OthersBefore(s, n, kept, all, y);
    var r := Last(all, n);
    forall x | x in r ensures y.quarterEnd < x.quarterEnd {
      var i := LastIndex(all, n, x);
    }
  }

  lemma OthersBefore(s: seq<Row>, n: nat, kept: seq<Row>, all: seq<Row>, y: Row)
    requires KeepsRecent(s, n, kept) && BestOfEach(kept, all) && y in s
    requires !HasQuarter(Last(all, n), y.quarterEnd)
    ensures |all| >= n && forall i | |all| - n <= i < |all| :: y.quarterEnd < all[i].quarterEnd
  {
    var q, r, base := y.quarterEnd, Last(all, n), |all| - |Last(all, n)|;
    RecentQuartersKept(s, n, kept);
    InQuarters(s, y);
    if q in Quarters(kept) {
      forall i | base <= i < |all| ensures all[i].quarterEnd != q {
        assert all[i] == r[i - base];
      }
      OlderThanTail(all, base, q);
    } else {
      MissingHasNewer(Quarters(s), Quarters(kept), n, q);
      OlderThanLast(all, n, q);
    }
  }

  lemma ReturnedIsRight(rows: seq<Row>, symbol: string, n: nat, kept: seq<Row>, all: seq<Row>, x: Row)
    requires KeepsRecent(OfSymbol(rows, symbol), n, kept) && BestOfEach(kept, all) && x in Last(all, n)
    ensures x.symbol == symbol && BestIn(rows, x)
  {
    var s := OfSymbol(rows, symbol);
    var i := LastIndex(all, n, x);
    ReturnedIsBest(s, symbol, n, kept, all, i);
    BestInSymbol(rows, symbol, x);
  }

  lemma LastIndex(all: seq<Row>, n: nat, x: Row) returns (i: nat)
    requires x in Last(all, n)
    ensures i < |all| && i >= |all| - n && all[i] == x
  {
    var r := Last(all, n);
    var j :| 0 <= j < |r| && r[j] == x;
    i := |all| - |r| + j;
  }

  lemma LastAscends(all: seq<Row>, n: nat)
    requires Ascending(all)
    ensures |Last(all, n)| <= n && Ascending(Last(all, n))
  {
    var r := Last(all, n);
    assert forall i | 0 <= i < |r| :: r[i] == all[|all| - |r| + i];
  }

  /** Then the limited query is right. */
  lemma LimitedIsEnough(rows: seq<Row>, symbol: string, n: nat, o: seq<Row>, all: seq<Row>)
    requires Answers(rows, symbol, o) && CutSafe(rows, symbol, n)
    requires BestOfEach(Limited(o, n), all)
    ensures MostRecent(rows, symbol, n, Last(all, n))
  {
    var s, kept, r := OfSymbol(rows, symbol), Limited(o, n), Last(all, n);
    CutKeepsRecent(rows, symbol, n, o);
    LastAscends(all, n);
    forall x | x in r ensures x.symbol == symbol && BestIn(rows, x) {
      ReturnedIsRight(rows, symbol, n, kept, all, x);
    }
    forall y | y in rows && y.symbol == symbol && !HasQuarter(r, y.quarterEnd)
      ensures |r| == n && forall x <- r :: y.quarterEnd < x.quarterEnd
    {
      OthersAreOlder(s, n, kept, all, y);
    }
  }

  // ---------------------------------------------------------------- which source is returned

  lemma TrustOrder()
    ensures Priority("nse_xbrl") == 0 && Priority("bse_xbrl") == 1 && Priority("nse_pdf") == 2
    ensures Priority("pipeline") == 3 && Priority("yfinance") == 4 && Priority("manual") == 5
  {
    var l := SOURCE_PRIORITY;
    assert l[0][0] == 'n' && l[1][0] == 'b' && l[2][0] == 'n' && l[3][0] == 'p' && l[4][0] == 'y' && l[5][0] == 'm';
    assert |l[0]| == 8 && |l[2]| == 7;
    forall i, j | 0 <= i < j < 6 ensures l[i] != l[j] {
    }
    forall i | 0 <= i < 6 ensures Priority(l[i]) == i {
      var k := Priority(l[i]);
      assert l[k] == l[i];
    }
  }

  /** The quarter of `x` has a row from `source`. */
  ghost predicate Reports(rows: seq<Row>, x: Row, source: string) {
    exists y :: y in rows && y.symbol == x.symbol && y.quarterEnd == x.quarterEnd && y.source == source
  }

  /** `x` is from the most trusted source that reports its quarter; from one that is not listed only
      when none that is listed reports it. */
  ghost predicate MostTrusted(rows: seq<Row>, x: Row) {
    if Reports(rows, x, "nse_xbrl") then x.source == "nse_xbrl"
    else if Reports(rows, x, "bse_xbrl") then x.source == "bse_xbrl"
    else if Reports(rows, x, "nse_pdf") then x.source == "nse_pdf"
    else if Reports(rows, x, "pipeline") then x.source == "pipeline"
    else if Reports(rows, x, "yfinance") then x.source == "yfinance"
    else Reports(rows, x, "manual") ==> x.source == "manual"
  }

  lemma BestBeats(rows: seq<Row>, x: Row, source: string)
    requires BestIn(rows, x) && Reports(rows, x, source)
    ensures Priority(x.source) <= Priority(source)
  {
    var y :| y in rows && y.symbol == x.symbol && y.quarterEnd == x.quarterEnd && y.source == source;
  }

  lemma BestIsMostTrusted(rows: seq<Row>, x: Row)
    requires BestIn(rows, x)
    ensures MostTrusted(rows, x)
  {
    TrustOrder();
    assert Reports(rows, x, x.source);
    var l := ["nse_xbrl", "bse_xbrl", "nse_pdf", "pipeline", "yfinance", "manual"];
    forall i | 0 <= i < 6 && Reports(rows, x, l[i])
      ensures Priority(x.source) <= i && l[Priority(x.source)] == x.source
    {
      BestBeats(rows, x, l[i]);
      assert SOURCE_PRIORITY[Priority(x.source)] == x.source;
      assert Priority(SOURCE_PRIORITY[Priority(x.source)]) == Priority(x.source);
      SourceAt(x.source);
    }
  }

  lemma SourceAt(source: string)
    requires Priority(source) < 6
    ensures source == ["nse_xbrl", "bse_xbrl", "nse_pdf", "pipeline", "yfinance", "manual"][Priority(source)]
  {
    assert SOURCE_PRIORITY[Priority(source)] == source;
  }

  /** While the limit is safe, every row returned is from the most trusted source of its quarter. */
  lemma ReturnedIsMostTrusted(rows: seq<Row>, symbol: string, n: nat, o: seq<Row>, all: seq<Row>, x: Row)
    requires Answers(rows, symbol, o) && CutSafe(rows, symbol, n)
    requires BestOfEach(Limited(o, n), all) && x in Last(all, n)
    ensures x.symbol == symbol && MostTrusted(rows, x)
  {
    LimitedIsEnough(rows, symbol, n, o, all);
    BestIsMostTrusted(rows, x);
  }

  // ---------------------------------------------------------------- and when it is not

  /** Newest quarter first. */
  function PutInOrder(o: seq<Row>, x: Row): (r: seq<Row>)
    ensures multiset(r) == multiset(o) + multiset{x}
  {
    if o == [] then [x]
    else if x.quarterEnd >= o[0].quarterEnd then [x] + o
    else
      assert o == [o[0]] + o[1..];
      [o[0]] + PutInOrder(o[1..], x)
  }

  function InOrder(list: seq<Row>): (r: seq<Row>)
    ensures multiset(r) == multiset(list)
  {
    if list == [] then []
    else
      assert list == [list[0]] + list[1..];
      PutInOrder(InOrder(list[1..]), list[0])
  }

  lemma {:induction false} PutKeepsDescending(o: seq<Row>, x: Row)
    requires Descending(o)
    ensures Descending(PutInOrder(o, x))
  {
    if o != [] && x.quarterEnd < o[0].quarterEnd {
      PutKeepsDescending(o[1..], x);
      var r := PutInOrder(o[1..], x);
      forall i | 0 <= i < |r| ensures o[0].quarterEnd >= r[i].quarterEnd {
        assert r[i] in multiset(r);
        assert r[i] in multiset(o[1..]) || r[i] == x;
      }
    }
  }

  lemma {:induction false} InOrderDescends(list: seq<Row>)
    ensures Descending(InOrder(list))
  {
    if list != [] {
      InOrderDescends(list[1..]);
      PutKeepsDescending(InOrder(list[1..]), list[0]);
    }
  }

  ghost function Others(list: seq<Row>, s: seq<Row>, q: int): (r: seq<Row>)
    ensures multiset(list) == multiset(Blockers(list, s, q)) + multiset(r)
    ensures forall x <- r :: !Blocks(s, q, x)
  {
    if list == [] then []
    else
      assert list == [list[0]] + list[1..];
      (if Blocks(s, q, list[0]) then [] else [list[0]]) + Others(list[1..], s, q)
  }

  /** An answer of the database that has all the blockers of a quarter first. */
  lemma BlockersFirst(s: seq<Row>, q: int) returns (o: seq<Row>)
    ensures Descending(o) && multiset(o) == multiset(s)
    ensures |Blockers(s, s, q)| <= |o| && forall i | 0 <= i < |Blockers(s, s, q)| :: Blocks(s, q, o[i])
  {
    var blockers, others := Blockers(s, s, q), Others(s, s, q);
    var a, b := InOrder(blockers), InOrder(others);
    InOrderDescends(blockers);
    InOrderDescends(others);
    SameMembers(a, blockers);
    SameMembers(b, others);
    forall i | 0 <= i < |a| ensures Blocks(s, q, a[i]) {
      assert a[i] in a;
    }
    forall i | 0 <= i < |b| ensures b[i].quarterEnd <= q {
      assert b[i] in b;
    }
    DescendingJoin(a, b, q);
    o := a + b;
  }

  lemma SameMembers(a: seq<Row>, b: seq<Row>)
    requires multiset(a) == multiset(b)
    ensures |a| == |b| && forall x :: x in a <==> x in b
  {
    assert |a| == |multiset(a)| && |b| == |multiset(b)|;
    assert forall x :: x in a <==> x in multiset(a);
    assert forall x :: x in b <==> x in multiset(b);
  }

  lemma DescendingJoin(a: seq<Row>, b: seq<Row>, q: int)
    requires Descending(a) && Descending(b)
    requires forall i | 0 <= i < |a| :: a[i].quarterEnd >= q
    requires forall i | 0 <= i < |b| :: b[i].quarterEnd <= q
    ensures Descending(a + b)
  {
  }

  lemma BestOfEachExists(kept: seq<Row>) returns (all: seq<Row>)
    ensures BestOfEach(kept, all)
  {
    var best := BestAfter(kept);
    BestAfterIsBest(kept);
    all := [];
    var left := best.Keys;
    while left != {}
      invariant left <= best.Keys
      invariant Ascending(all) && Quarters(all) == best.Keys - left
      invariant forall x <- all :: x.quarterEnd in best && x == best[x.quarterEnd]
      decreases left
    {
      var q :| q in left;
      InsertedAscends(all, best[q]);
      all := Inserted(all, best[q]);
      left := left - {q};
    }
  }

  /** A recent quarter with too many blockers, and the wrong answer that goes with it. */
  lemma TooManyBlockers(rows: seq<Row>, symbol: string, n: nat, q: int) returns (o: seq<Row>, all: seq<Row>)
    requires Recent(OfSymbol(rows, symbol), n, q)
    requires |Blockers(OfSymbol(rows, symbol), OfSymbol(rows, symbol), q)| >= ROWS_PER_QUARTER * n
    ensures Answers(rows, symbol, o) && BestOfEach(Limited(o, n), all)
    ensures !MostRecent(rows, symbol, n, Last(all, n))
  {
    var s := OfSymbol(rows, symbol);
    o := BlockersFirst(s, q);
    all := BestOfEachExists(Limited(o, n));
    BlockedIsWrong(rows, symbol, n, q, o, all);
  }

  lemma NoneIsBest(s: seq<Row>, q: int, kept: seq<Row>, all: seq<Row>, x: Row)
    requires forall i | 0 <= i < |kept| :: Blocks(s, q, kept[i])
    requires BestOfEach(kept, all) && x in all && x.quarterEnd == q
    ensures !BestIn(s, x)
  {
    var i :| FirstBestAt(kept, i) && kept[i] == x;
    assert Blocks(s, q, kept[i]);
  }

  lemma BlockedIsWrong(rows: seq<Row>, symbol: string, n: nat, q: int, o: seq<Row>, all: seq<Row>)
    requires Recent(OfSymbol(rows, symbol), n, q) && Answers(rows, symbol, o)
    requires |o| >= ROWS_PER_QUARTER * n
    requires forall i | 0 <= i < |Limited(o, n)| :: Blocks(OfSymbol(rows, symbol), q, Limited(o, n)[i])
    requires BestOfEach(Limited(o, n), all)
    ensures !MostRecent(rows, symbol, n, Last(all, n))
  {
    var s, kept, r := OfSymbol(rows, symbol), Limited(o, n), Last(all, n);
    if MostRecent(rows, symbol, n, r) {
      if i :| 0 <= i < |r| && r[i].quarterEnd == q {
        assert r[i] in r && r[i] in all;
        BestInSymbol(rows, symbol, r[i]);
        NoneIsBest(s, q, kept, all, r[i]);
        assert false;
      }
      var i :| 0 <= i < |s| && s[i].quarterEnd == q;
      assert s[i] in s && s[i] in rows && !HasQuarter(r, q);
      AscendingCount(r);
      forall p | p in Quarters(r) ensures p in Newer(Quarters(s), q) {
        var j :| 0 <= j < |r| && r[j].quarterEnd == p;
        assert r[j] in r && r[j] in s;
        InQuarters(s, r[j]);
      }
      SubsetSize(Quarters(r), Newer(Quarters(s), q));
    }
  }

  /** The limited query is right, in whichever order the database returns rows of one quarter,
      exactly when the limit is safe. */
  lemma QueryRightIff(rows: seq<Row>, symbol: string, n: nat)
    ensures AlwaysRight(rows, symbol, n) <==> CutSafe(rows, symbol, n)
  {
    var s := OfSymbol(rows, symbol);
    if CutSafe(rows, symbol, n) {
      forall o, all | Answers(rows, symbol, o) && BestOfEach(Limited(o, n), all)
        ensures MostRecent(rows, symbol, n, Last(all, n))
      {
        LimitedIsEnough(rows, symbol, n, o, all);
      }
    } else {
      var q :| Recent(s, n, q) && |Blockers(s, s, q)| >= ROWS_PER_QUARTER * n;
      var o, all := TooManyBlockers(rows, symbol, n, q);
    }
  }

  // ---------------------------------------------------------------- six rows a quarter are safe

  lemma {:induction false} FewerWithQuarter(a: seq<Row>, b: seq<Row>, q: int)
    requires multiset(a) <= multiset(b)
    ensures |WithQuarter(a, q)| <= |WithQuarter(b, q)|
  {
    var x, y := multiset(WithQuarter(a, q)), multiset(WithQuarter(b, q));
    forall z ensures x[z] <= y[z] {
      WithQuarterCount(a, q, z);
      WithQuarterCount(b, q, z);
      assert multiset(a)[z] <= multiset(b)[z];
    }
    assert y == x + (y - x);
  }

  /** At most six rows a quarter: by the pigeonhole principle the blockers of a recent quarter and
      one best row of it are at most 6n. */
  lemma AtMostSixIsSafe(rows: seq<Row>, symbol: string, n: nat)
    requires AtMostSix(OfSymbol(rows, symbol))
    ensures CutSafe(rows, symbol, n)
  {
    var s := OfSymbol(rows, symbol);
    forall q | Recent(s, n, q) ensures |Blockers(s, s, q)| < ROWS_PER_QUARTER * n {
      var x := BestRow(s, q);
      var b := Blockers(s, s, q) + [x];
      BlockersAndBest(s, q, x);
      forall p ensures |WithQuarter(b, p)| <= ROWS_PER_QUARTER {
        FewerWithQuarter(b, s, p);
      }
      Pigeonhole(b);
      QuartersOfBlockers(s, q, x);
      SubsetSize(Quarters(b), Newer(Quarters(s), q) + {q});
    }
  }

  lemma BlockersAndBest(s: seq<Row>, q: int, x: Row)
    requires x.quarterEnd == q && BestIn(s, x)
    ensures multiset(Blockers(s, s, q) + [x]) <= multiset(s)
  {
    forall z ensures multiset(Blockers(s, s, q) + [x])[z] <= multiset(s)[z] {
      BlockersCount(s, s, q, z);
      assert x in multiset(s);
    }
  }

  lemma QuartersOfBlockers(s: seq<Row>, q: int, x: Row)
    requires x.quarterEnd == q
    ensures Quarters(Blockers(s, s, q) + [x]) <= Newer(Quarters(s), q) + {q}
  {
    var b := Blockers(s, s, q) + [x];
    forall p | p in Quarters(b) ensures p in Newer(Quarters(s), q) + {q} {
      var i :| 0 <= i < |b| && b[i].quarterEnd == p;
      if i < |b| - 1 {
        assert b[i] in Blockers(s, s, q);
        InQuarters(s, b[i]);
      }
    }
  }

  /** So after any upserts from known sources the query is right. */
  lemma LimitedQueryIsRight(us: seq<Row>, symbol: string, n: nat)
    requires AllKnown(us)
    ensures AlwaysRight(UpsertedAll([], us), symbol, n)
  {
    var rows := UpsertedAll([], us);
    UpsertsKeepUniqueKey([], us);
    KnownSourcesAtMostSix(rows, symbol);
    AtMostSixIsSafe(rows, symbol, n);
    QueryRightIff(rows, symbol, n);
  }

  class QuarterlyTable {
    var rows: seq<Row>
    var yoy: map<Key, Yoy>

    constructor ()
      ensures rows == [] && yoy == map[]
    {
      rows, yoy := [], map[];
    }

    /** `upsert_quarter`. `prior` is what the database answers for the quarter a year before, once
        the row is written; rows of several sources may match. */
    method Upsert(u: Row, prior: Option<Row>)
      requires PriorAnswer(Upserted(rows, u), u, prior)
      modifies this
      ensures rows == Upserted(old(rows), u)
      ensures var row := rows[FindKey(old(rows), u)];
              SameKey(row, u) && yoy == old(yoy)[KeyOf(u) := YoyAfter(row, prior, YoyOf(old(yoy), KeyOf(u)))]
      ensures var row := rows[FindKey(old(rows), u)];
              ColumnsLeadBack(row, prior, YoyOf(old(yoy), KeyOf(u)), YoyOf(yoy, KeyOf(u)))
      ensures prior.Some? ==> && prior.value.symbol == u.symbol && prior.value.fiscalQuarter == u.fiscalQuarter
                              && prior.value.fiscalYear + 1 == u.fiscalYear
    {
      var row := WriteRow(u);
      var columns := YoyOf(yoy, KeyOf(u));
      if prior.Some? {
        var now, before := row.metrics, prior.value.metrics;
        if now.revenue.Some? && before.revenue.Some? && before.revenue.value != 0.0 {
          columns := columns.(revenue := Some((now.revenue.value / before.revenue.value - 1.0) * 100.0));
        }
        if now.pat.Some? && before.pat.Some? && before.pat.value != 0.0 {
          columns := columns.(pat := Some((now.pat.value / before.pat.value - 1.0) * 100.0));
        }
      }
      ghost var before := YoyOf(yoy, KeyOf(u));
      yoy := yoy[KeyOf(u) := columns];
      YoyLeadsBack(row, prior, before);
    }

    /** The row of the key is found or added, and its columns are set. */
    method WriteRow(u: Row) returns (row: Row)
      modifies this`rows
      ensures rows == Upserted(old(rows), u)
      ensures FindKey(old(rows), u) < |rows| && row == rows[FindKey(old(rows), u)] && SameKey(row, u)
    {
      var i := 0;
      while i < |rows| && !SameKey(rows[i], u)
        invariant 0 <= i <= |rows|
        invariant forall j | 0 <= j < i :: !SameKey(rows[j], u)
      {
        i := i + 1;
      }
      var k := FindKey(rows, u);
      assert i == k;
      if i == |rows| {
        rows := rows + [u.(metrics := Metrics(None, None, None, None))];
      }
      row := rows[i].(fiscalQuarter := u.fiscalQuarter, fiscalYear := u.fiscalYear,
                      parseStatus := u.parseStatus, filingId := u.filingId);
      if u.metrics.revenue.Some? {
        row := row.(metrics := row.metrics.(revenue := u.metrics.revenue));
      }
      if u.metrics.pat.Some? {
        row := row.(metrics := row.metrics.(pat := u.metrics.pat));
      }
      if u.metrics.ebitda.Some? {
        row := row.(metrics := row.metrics.(ebitda := u.metrics.ebitda));
      }
      if u.metrics.eps.Some? {
        row := row.(metrics := row.metrics.(eps := u.metrics.eps));
      }
      rows := rows[i := row];
    }

    /** The dict of `get_prior_quarters` over the rows it fetched. */
    static method BestPerQuarter(kept: seq<Row>) returns (best: map<int, Row>)
      ensures best == BestAfter(kept)
    {
      best := map[];
      for i := 0 to |kept|
        invariant best == BestAfter(kept[..i])
      {
        var row := kept[i];
        assert kept[..i + 1][..i] == kept[..i];
        if row.quarterEnd !in best {
          best := best[row.quarterEnd := row];
        } else if Priority(row.source) < Priority(best[row.quarterEnd].source) {
          best := best[row.quarterEnd := row];
        }
      }
      assert kept[..|kept|] == kept;
    }

    static method Sorted(kept: seq<Row>, best: map<int, Row>) returns (all: seq<Row>)
      requires BestSoFar(kept, best)
      ensures BestOfEach(kept, all)
    {
      all := [];
      var left := best.Keys;
      while left != {}
        invariant left <= best.Keys
        invariant Ascending(all) && Quarters(all) == best.Keys - left
        invariant forall x <- all :: x.quarterEnd in best && x == best[x.quarterEnd]
        decreases left
      {
        var q :| q in left;
        InsertedAscends(all, best[q]);
        all := Inserted(all, best[q]);
        left := left - {q};
      }
    }

    /** `get_prior_quarters`: `answer` is what the database has for the symbol, newest quarter
        first, before the row limit. */
    method GetPriorQuarters(symbol: string, n: nat, answer: seq<Row>) returns (r: seq<Row>)
      requires Answers(rows, symbol, answer)
      ensures exists all :: BestOfEach(Limited(answer, n), all) && r == Last(all, n)
      ensures AtMostSix(OfSymbol(rows, symbol)) || CutSafe(rows, symbol, n) ==>
                MostRecent(rows, symbol, n, r) && forall x <- r :: MostTrusted(rows, x)
    {
      var kept := Limited(answer, n);
      var best := BestPerQuarter(kept);
      BestAfterIsBest(kept);
      var all := Sorted(kept, best);
      r := Last(all, n);
      if AtMostSix(OfSymbol(rows, symbol)) {
        AtMostSixIsSafe(rows, symbol, n);
      }
      if CutSafe(rows, symbol, n) {
        LimitedIsEnough(rows, symbol, n, answer, all);
        forall x | x in r ensures MostTrusted(rows, x) {
          ReturnedIsMostTrusted(rows, symbol, n, answer, all, x);
        }
      }
    }
  }

  // ---------------------------------------------------------------- sources that are not listed

  function RowFrom(source: string): Row {
    Row("S", 0, source, 1, 2026, Metrics(None, None, None, None), "UNKNOWN", None)
  }

  lemma {:induction false} OfSymbolAll(rows: seq<Row>, symbol: string)
    requires forall i | 0 <= i < |rows| :: rows[i].symbol == symbol
    ensures OfSymbol(rows, symbol) == rows
  {
    if rows != [] {
      OfSymbolAll(rows[1..], symbol);
    }
  }

  /** Six rows of a quarter from sources that are not listed. */
  function Unlisted(): (r: seq<Row>)
    ensures |r| == 6
    ensures forall i | 0 <= i < 6 :: r[i] == RowFrom(LongName(9 + i))
  {
    seq(6, i requires 0 <= i < 6 => RowFrom(LongName(9 + i)))
  }

  function LongName(length: nat): (s: string)
    ensures |s| == length
  {
    seq(length, _ => 'x')
  }

  const MANUAL := RowFrom("manual")

  lemma UnlistedAreDistinct()
    ensures UniqueKey(Unlisted() + [MANUAL])
    ensures forall i | 0 <= i < 6 :: Priority(Unlisted()[i].source) == 6
  {
    var u := Unlisted();
    forall i | 0 <= i < 6 ensures |u[i].source| == 9 + i && Priority(u[i].source) == 6 {
      LongIsUnlisted(u[i].source);
    }
    assert |MANUAL.source| == 6;
  }

  lemma ManualIsBetter(rows: seq<Row>, x: Row)
    requires MANUAL in rows && x.symbol == "S" && x.quarterEnd == 0 && Priority(x.source) == 6
    ensures !BestIn(rows, x)
  {
    assert Priority(MANUAL.source) < 6;
  }

  lemma NotBestNotRecent(rows: seq<Row>, symbol: string, x: Row)
    requires !BestIn(rows, x)
    ensures !MostRecent(rows, symbol, 1, Last([x], 1))
  {
    assert x in Last([x], 1);
  }

  /** The query over `o` finds `all` and returns the wrong rows. */
  ghost predicate WrongAnswer(rows: seq<Row>, symbol: string, n: nat, o: seq<Row>, all: seq<Row>) {
    && UniqueKey(rows) && Answers(rows, symbol, o) && BestOfEach(Limited(o, n), all)
    && !MostRecent(rows, symbol, n, Last(all, n))
  }

  lemma SameQuarterAnswers(rows: seq<Row>, symbol: string)
    requires forall i | 0 <= i < |rows| :: rows[i].symbol == symbol && rows[i].quarterEnd == 0
    ensures Answers(rows, symbol, rows)
  {
    OfSymbolAll(rows, symbol);
  }

  /** The column takes any source. Six rows from unlisted sources can push the best row of a
      quarter behind the row limit, so the answer is wrong. */
  lemma UnlistedSourcesHideBest()
    ensures WrongAnswer(Unlisted() + [MANUAL], "S", 1, Unlisted() + [MANUAL], [Unlisted()[0]])
  {
    var u := Unlisted();
    var rows := u + [MANUAL];
    UnlistedAreDistinct();
    assert forall i | 0 <= i < 7 :: rows[i] == if i < 6 then u[i] else MANUAL;
    SameQuarterAnswers(rows, "S");
    assert Limited(rows, 1) == u;
    OneRowIsBestOfEach(u, u[0]);
    assert MANUAL == rows[6];
    ManualIsBetter(rows, u[0]);
    NotBestNotRecent(rows, "S", u[0]);
  }

  lemma LongIsUnlisted(source: string)
    requires |source| > 8
    ensures Priority(source) == 6
  {
    assert |SOURCE_PRIORITY| == 6;
    assert forall i | 0 <= i < 6 :: |SOURCE_PRIORITY[i]| <= 8;
  }

  lemma OneRowIsBestOfEach(kept: seq<Row>, x: Row)
    requires kept != [] && kept[0] == x
    requires forall i | 0 <= i < |kept| ::
               kept[i].quarterEnd == x.quarterEnd && Priority(kept[i].source) == Priority(x.source)
    ensures BestOfEach(kept, [x])
  {
    assert Quarters(kept) == {x.quarterEnd} by {
      InQuarters(kept, x);
    }
    assert Quarters([x]) == {x.quarterEnd} by {
      InQuarters([x], x);
    }
    assert FirstBestAt(kept, 0);
  }
}
