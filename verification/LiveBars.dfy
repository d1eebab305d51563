/**
 The streaming bar builder of src/data_ingestion/market_live.py and the store of
 src/data_ingestion/intraday_context.py, which hold the same `Bar` objects.

 `Batch` is the specification: cut a symbol's ticks into groups, each the longest stretch whose
 buckets do not pass the bucket of its first tick, and summarise each group. Times are integers
 in one unit; a bucket start is the floor of the time to a multiple of the interval.
 */
module LiveBars {
  import opened Numbers

  datatype Symbol = Symbol(name: string)

  datatype Tick = Tick(symbol: Symbol, ltp: real, volume: int, at: int)

  datatype BarValue = BarValue(symbol: Symbol, start: int, end: int, open: real, high: real, low: real,
                               close: real, volume: int, startVolume: int)

  function BucketStart(interval: int, at: int): (b: int)
    requires interval > 0
    ensures b % interval == 0 && b <= at < b + interval
  {
    FloorIsMultiple(at / interval, interval);
    (at / interval) * interval
  }

  lemma FloorIsMultiple(q: int, interval: int)
    requires interval > 0
    ensures (q * interval) % interval == 0
  {
    var k, r := (q * interval) / interval, (q * interval) % interval;
    assert (q - k) * interval == r;
    ProductBeyond(q - k, interval);
  }

  lemma ProductBeyond(a: int, b: int)
    requires b > 0
    ensures a >= 1 ==> a * b >= b
    ensures a <= -1 ==> a * b <= -b
  {
    if a >= 1 {
      assert (a - 1) * b >= 0;
    } else if a <= -1 {
      assert (-1 - a) * b >= 0;
    }
  }

  function Bucket(interval: int, t: Tick): int
    requires interval > 0
  {
    BucketStart(interval, t.at)
  }

  // ---------------------------------------------------------------- the batch specification

  /** Length of the first group: up to the first tick whose bucket passes that of `ticks[0]`. */
  function Cut(interval: int, ticks: seq<Tick>, from: nat): (n: nat)
    requires interval > 0 && 1 <= from <= |ticks|
    ensures from <= n <= |ticks|
    ensures forall i | from <= i < n :: Bucket(interval, ticks[i]) <= Bucket(interval, ticks[0])
    ensures n < |ticks| ==> Bucket(interval, ticks[n]) > Bucket(interval, ticks[0])
    decreases |ticks| - from
  {
    if from == |ticks| || Bucket(interval, ticks[from]) > Bucket(interval, ticks[0]) then from
    else Cut(interval, ticks, from + 1)
  }

  function Groups(interval: int, ticks: seq<Tick>): (gs: seq<seq<Tick>>)
    requires interval > 0
    ensures forall i | 0 <= i < |gs| :: gs[i] != []
    ensures gs == [] <==> ticks == []
    decreases |ticks|
  {
    if ticks == [] then []
    else
      var n := Cut(interval, ticks, 1);
      [ticks[..n]] + Groups(interval, ticks[n..])
  }

  function Highest(g: seq<Tick>): real
    requires g != []
  {
    if |g| == 1 then g[0].ltp else Max(Highest(g[..|g| - 1]), g[|g| - 1].ltp)
  }

  function Lowest(g: seq<Tick>): real
    requires g != []
  {
    if |g| == 1 then g[0].ltp else Min(Lowest(g[..|g| - 1]), g[|g| - 1].ltp)
  }

  /** Cumulative volume gained since the first tick, ignoring ticks that report less than it. */
  function Gained(g: seq<Tick>): int
    requires g != []
  {
    if |g| == 1 then 0
    else if g[|g| - 1].volume >= g[0].volume then g[|g| - 1].volume - g[0].volume
    else Gained(g[..|g| - 1])
  }

  function Summary(interval: int, g: seq<Tick>): BarValue
    requires interval > 0 && g != []
  {
    var start := Bucket(interval, g[0]);
    BarValue(g[0].symbol, start, start + interval, g[0].ltp, Highest(g), Lowest(g), g[|g| - 1].ltp,
             Gained(g), g[0].volume)
  }

  function Batch(interval: int, ticks: seq<Tick>): (bars: seq<BarValue>)
    requires interval > 0
    ensures |bars| == |Groups(interval, ticks)|
  {
    var gs := Groups(interval, ticks);
    seq(|gs|, i requires 0 <= i < |gs| => Summary(interval, gs[i]))
  }

  // ---------------------------------------------------------------- what the specification means

  /** The largest bucket among the first i + 1 ticks. */
  function RunningMax(interval: int, ticks: seq<Tick>, i: nat): int
    requires interval > 0 && i < |ticks|
  {
    var b := Bucket(interval, ticks[i]);
    if i == 0 then b
    else
      var m := RunningMax(interval, ticks, i - 1);
      if b > m then b else m
  }

  function Flat(gs: seq<seq<Tick>>): seq<Tick> {
    if gs == [] then [] else gs[0] + Flat(gs[1..])
  }

  /** For each tick, the start of the group it is in. */
  function GroupStarts(interval: int, gs: seq<seq<Tick>>): seq<int>
    requires interval > 0 && forall i | 0 <= i < |gs| :: gs[i] != []
  {
    if gs == [] then []
    else seq(|gs[0]|, _ => Bucket(interval, gs[0][0])) + GroupStarts(interval, gs[1..])
  }

  /** The groups are a partition of the ticks in order, and each tick is in the group whose start
      is the running maximum of the buckets at that tick. */
  lemma GroupsByRunningMax(interval: int, ticks: seq<Tick>, i: nat)
    requires interval > 0 && i < |ticks|
    ensures var gs := Groups(interval, ticks);
            && Flat(gs) == ticks
            && |GroupStarts(interval, gs)| == |ticks|
            && GroupStarts(interval, gs)[i] == RunningMax(interval, ticks, i)
  {
    FlatGroups(interval, ticks);
    StartIsRunningMax(interval, ticks, i);
  }

  lemma {:induction false} StartIsRunningMax(interval: int, ticks: seq<Tick>, i: nat)
    requires interval > 0 && i < |ticks|
    ensures var starts := GroupStarts(interval, Groups(interval, ticks));
            |starts| == |ticks| && starts[i] == RunningMax(interval, ticks, i)
    decreases |ticks|
  {
    var n := Cut(interval, ticks, 1);
    var rest := Groups(interval, ticks[n..]);
    assert Groups(interval, ticks)[1..] == rest;
    if n < |ticks| {
      StartIsRunningMax(interval, ticks[n..], if i < n then 0 else i - n);
    }
    if i < n {
      RunningMaxFlat(interval, ticks, n, i);
    } else {
      RunningMaxSkip(interval, ticks, n, i - n);
    }
  }

  lemma {:induction false} FlatGroups(interval: int, ticks: seq<Tick>)
    requires interval > 0
    ensures Flat(Groups(interval, ticks)) == ticks
    decreases |ticks|
  {
    if ticks != [] {
      var n := Cut(interval, ticks, 1);
      FlatGroups(interval, ticks[n..]);
      assert Groups(interval, ticks)[1..] == Groups(interval, ticks[n..]);
    }
  }

  lemma FirstGroupSmaller(interval: int, ticks: seq<Tick>)
    requires interval > 0 && ticks != []
    ensures Groups(interval, ticks)[0][0] == ticks[0]
  {
  }

  lemma {:induction false} RunningMaxFlat(interval: int, ticks: seq<Tick>, n: nat, j: nat)
    requires interval > 0 && j < n <= |ticks|
    requires forall i | 1 <= i < n :: Bucket(interval, ticks[i]) <= Bucket(interval, ticks[0])
    ensures RunningMax(interval, ticks, j) == Bucket(interval, ticks[0])
  {
    if j > 0 {
      RunningMaxFlat(interval, ticks, n, j - 1);
    }
  }

  /** Past the first group the running maximum forgets it. */
  lemma {:induction false} RunningMaxSkip(interval: int, ticks: seq<Tick>, n: nat, j: nat)
    requires interval > 0 && 1 <= n < |ticks| && j < |ticks| - n
    requires forall i | 1 <= i < n :: Bucket(interval, ticks[i]) <= Bucket(interval, ticks[0])
    requires Bucket(interval, ticks[n]) > Bucket(interval, ticks[0])
    ensures RunningMax(interval, ticks, n + j) == RunningMax(interval, ticks[n..], j)
  {
    if j == 0 {
      RunningMaxFlat(interval, ticks, n, n - 1);
    } else {
      RunningMaxSkip(interval, ticks, n, j - 1);
    }
  }

  /** `Highest` and `Lowest` are the extreme prices of the group. */
  lemma {:induction false} Extremes(g: seq<Tick>)
    requires g != []
    ensures forall t <- g :: Lowest(g) <= t.ltp <= Highest(g)
    ensures exists t <- g :: t.ltp == Highest(g)
    ensures exists t <- g :: t.ltp == Lowest(g)
  {
    var n := |g| - 1;
    assert g[n] in g;
    if n > 0 {
      Extremes(g[..n]);
      assert forall t <- g :: t in g[..n] || t == g[n];
      assert forall t <- g[..n] :: t in g;
    }
  }

  /** `Gained` is measured at the last tick reporting no less than the first. */
  lemma {:induction false} GainedAtLast(g: seq<Tick>)
    requires g != []
    ensures Gained(g) >= 0
    ensures exists i :: LastAtLeastFirst(g, i) && Gained(g) == g[i].volume - g[0].volume
  {
    var n := |g| - 1;
    if n == 0 || g[n].volume >= g[0].volume {
      assert LastAtLeastFirst(g, n);
    } else {
      GainedAtLast(g[..n]);
      var i :| LastAtLeastFirst(g[..n], i) && Gained(g[..n]) == g[..n][i].volume - g[..n][0].volume;
      assert forall j | i < j < n :: g[j] == g[..n][j];
      assert LastAtLeastFirst(g, i);
    }
  }

  ghost predicate LastAtLeastFirst(g: seq<Tick>, i: int) {
    && 0 <= i < |g|
    && g[i].volume >= g[0].volume
    && forall j | i < j < |g| :: g[j].volume < g[0].volume
  }

  /** `b` is the bar of the ticks `g`: first, highest, lowest and last price, and the cumulative volume
      gained up to the last tick that reports no less than the first. */
  ghost predicate IsBarOf(b: BarValue, g: seq<Tick>) {
    && g != []
    && b.symbol == g[0].symbol && b.open == g[0].ltp && b.close == g[|g| - 1].ltp
    && (forall t <- g :: b.low <= t.ltp <= b.high)
    && (exists t <- g :: t.ltp == b.high) && (exists t <- g :: t.ltp == b.low)
    && b.startVolume == g[0].volume
    && exists i :: LastAtLeastFirst(g, i) && b.volume == g[i].volume - g[0].volume
  }

  /** Every bar is the bar of its group. */
  lemma EveryBarIsOfGroup(interval: int, ticks: seq<Tick>, i: nat)
    requires interval > 0 && i < |Groups(interval, ticks)|
    ensures IsBarOf(Batch(interval, ticks)[i], Groups(interval, ticks)[i])
  {
    Extremes(Groups(interval, ticks)[i]);
    GainedAtLast(Groups(interval, ticks)[i]);
  }

  /** Bars begin at multiples of the interval, last one interval and do not overlap, whatever
      ticks arrive late. */
  lemma {:induction false} BarsDoNotOverlap(interval: int, ticks: seq<Tick>, i: nat)
    requires interval > 0 && i < |Batch(interval, ticks)|
    ensures var bars := Batch(interval, ticks);
            && bars[i].start % interval == 0 && bars[i].end == bars[i].start + interval
            && (i + 1 < |bars| ==> bars[i + 1].start >= bars[i].end)
    decreases |ticks|
  {
    var n := Cut(interval, ticks, 1);
    var gs := Groups(interval, ticks);
    if i == 0 {
      if |gs| > 1 {
        FirstGroupSmaller(interval, ticks[n..]);
        MultiplesApart(interval, Bucket(interval, ticks[0]), Bucket(interval, ticks[n]));
      }
    } else {
      BarsDoNotOverlap(interval, ticks[n..], i - 1);
      assert gs[1..] == Groups(interval, ticks[n..]);
      assert gs[i] == gs[1..][i - 1];
      if i + 1 < |gs| {
        assert gs[i + 1] == gs[1..][i];
      }
    }
  }

  lemma MultiplesApart(interval: int, a: int, b: int)
    requires interval > 0 && a % interval == 0 && b % interval == 0 && a < b
    ensures a + interval <= b
  {
    assert (b / interval - a / interval) * interval == b - a;
    ProductBeyond(a / interval - b / interval, interval);
    ProductBeyond(b / interval - a / interval, interval);
  }

  lemma {:induction false} StartsAscend(interval: int, ticks: seq<Tick>, i: nat, j: nat)
    requires interval > 0 && i < j < |Batch(interval, ticks)|
    ensures Batch(interval, ticks)[i].start < Batch(interval, ticks)[j].start
    decreases j
  {
    BarsDoNotOverlap(interval, ticks, j - 1);
    if i < j - 1 {
      StartsAscend(interval, ticks, i, j - 1);
    }
  }

  // ---------------------------------------------------------------- volumes

  ghost predicate NonDecreasing(ticks: seq<Tick>) {
    forall i, j | 0 <= i <= j < |ticks| :: ticks[i].volume <= ticks[j].volume
  }

  function TotalVolume(gs: seq<seq<Tick>>): int
    requires forall i | 0 <= i < |gs| :: gs[i] != []
  {
    if gs == [] then 0 else Gained(gs[0]) + TotalVolume(gs[1..])
  }

  /** Volume traded between the last tick of a group and the first tick of the next: no bar has it. */
  function Gaps(gs: seq<seq<Tick>>): int
    requires forall i | 0 <= i < |gs| :: gs[i] != []
  {
    if |gs| <= 1 then 0
    else gs[1][0].volume - gs[0][|gs[0]| - 1].volume + Gaps(gs[1..])
  }

  /** For cumulative volumes that never decrease, the bar volumes telescope: with the gaps at
      the roll-overs they make up the whole of last minus first. */
  lemma {:induction false} VolumesTelescope(interval: int, ticks: seq<Tick>)
    requires interval > 0 && ticks != [] && NonDecreasing(ticks)
    ensures var gs := Groups(interval, ticks);
            && TotalVolume(gs) + Gaps(gs) == ticks[|ticks| - 1].volume - ticks[0].volume
            && Gaps(gs) >= 0
            && 0 <= TotalVolume(gs) <= ticks[|ticks| - 1].volume - ticks[0].volume
    decreases |ticks|
  {
    var n := Cut(interval, ticks, 1);
    var gs := Groups(interval, ticks);
    assert gs[0] == ticks[..n] && gs[1..] == Groups(interval, ticks[n..]);
    GainedAtLast(gs[0]);
    assert Gained(gs[0]) == ticks[n - 1].volume - ticks[0].volume;
    if n < |ticks| {
      VolumesTelescope(interval, ticks[n..]);
      FirstGroupSmaller(interval, ticks[n..]);
      assert gs[1] == gs[1..][0];
    } else {
      assert ticks[n..] == [];
    }
  }

  // ---------------------------------------------------------------- one more tick

  lemma CutIsUnique(interval: int, ticks: seq<Tick>, n: nat)
    requires interval > 0 && 1 <= n <= |ticks|
    requires forall i | 1 <= i < n :: Bucket(interval, ticks[i]) <= Bucket(interval, ticks[0])
    requires n < |ticks| ==> Bucket(interval, ticks[n]) > Bucket(interval, ticks[0])
    ensures Cut(interval, ticks, 1) == n
  {
    var c := Cut(interval, ticks, 1);
    assert c < |ticks| ==> !(1 <= c < n);
    assert n < |ticks| ==> !(1 <= n < c);
  }

  /** The groups with one more tick: a new group if its bucket passes the start of the last one. */
  function Grown(interval: int, gs: seq<seq<Tick>>, x: Tick): seq<seq<Tick>>
    requires interval > 0 && forall i | 0 <= i < |gs| :: gs[i] != []
  {
    if gs == [] || Bucket(interval, x) > Bucket(interval, gs[|gs| - 1][0]) then gs + [[x]]
    else gs[..|gs| - 1] + [gs[|gs| - 1] + [x]]
  }

  lemma OneTickOneGroup(interval: int, x: Tick)
    requires interval > 0
    ensures Groups(interval, [x]) == [[x]]
  {
    assert [x][..1] == [x] && [x][1..] == [];
  }

  lemma OneGroupGrown(interval: int, ticks: seq<Tick>, x: Tick)
    requires interval > 0 && ticks != [] && Cut(interval, ticks, 1) == |ticks|
    ensures Groups(interval, ticks) == [ticks]
    ensures Groups(interval, ticks + [x])
         == if Bucket(interval, x) > Bucket(interval, ticks[0]) then [ticks, [x]] else [ticks + [x]]
  {
    var n, more := |ticks|, ticks + [x];
    assert ticks[..n] == ticks && ticks[n..] == [];
    assert forall i | 0 <= i < n :: more[i] == ticks[i];
    if Bucket(interval, x) > Bucket(interval, ticks[0]) {
      CutIsUnique(interval, more, n);
      assert more[..n] == ticks && more[n..] == [x];
      OneTickOneGroup(interval, x);
    } else {
      CutIsUnique(interval, more, n + 1);
      assert more[..n + 1] == more && more[n + 1..] == [];
    }
  }

  lemma FirstGroupStays(interval: int, ticks: seq<Tick>, x: Tick)
    requires interval > 0 && ticks != [] && Cut(interval, ticks, 1) < |ticks|
    ensures var n := Cut(interval, ticks, 1);
            Groups(interval, ticks + [x]) == [ticks[..n]] + Groups(interval, ticks[n..] + [x])
  {
    var n, more := Cut(interval, ticks, 1), ticks + [x];
    assert forall i | 0 <= i < |ticks| :: more[i] == ticks[i];
    CutIsUnique(interval, more, n);
    assert more[..n] == ticks[..n] && more[n..] == ticks[n..] + [x];
  }

  lemma GrownTail(interval: int, g: seq<Tick>, gs: seq<seq<Tick>>, x: Tick)
    requires interval > 0 && g != [] && gs != [] && forall i | 0 <= i < |gs| :: gs[i] != []
    ensures Grown(interval, [g] + gs, x) == [g] + Grown(interval, gs, x)
  {
    var all := [g] + gs;
    assert all[|all| - 1] == gs[|gs| - 1];
    assert all[..|all| - 1] == [g] + gs[..|gs| - 1];
  }

  lemma {:induction false} GroupsSnoc(interval: int, ticks: seq<Tick>, x: Tick)
    requires interval > 0
    ensures Groups(interval, ticks + [x]) == Grown(interval, Groups(interval, ticks), x)
    decreases |ticks|
  {
    if ticks == [] {
      assert ticks + [x] == [x];
      assert [x][..1] == [x] && [x][1..] == [];
    } else {
      var n := Cut(interval, ticks, 1);
      if n < |ticks| {
        FirstGroupStays(interval, ticks, x);
        GroupsSnoc(interval, ticks[n..], x);
        GrownTail(interval, ticks[..n], Groups(interval, ticks[n..]), x);
      } else {
        OneGroupGrown(interval, ticks, x);
      }
    }
  }

  function Fresh(interval: int, x: Tick): BarValue
    requires interval > 0
  {
    var start := Bucket(interval, x);
    BarValue(x.symbol, start, start + interval, x.ltp, x.ltp, x.ltp, x.ltp, 0, x.volume)
  }

  function Updated(v: BarValue, x: Tick): BarValue {
    v.(high := Max(v.high, x.ltp), low := Min(v.low, x.ltp), close := x.ltp,
       volume := if x.volume >= v.startVolume then x.volume - v.startVolume else v.volume)
  }

  lemma SummarySnoc(interval: int, g: seq<Tick>, x: Tick)
    requires interval > 0 && g != []
    ensures Summary(interval, [x]) == Fresh(interval, x)
    ensures Summary(interval, g + [x]) == Updated(Summary(interval, g), x)
  {
    assert (g + [x])[..|g|] == g;
  }

  /** One symbol's bars with one more tick: either one more bar, or the last bar updated. */
  function Extended(interval: int, bars: seq<BarValue>, x: Tick): seq<BarValue>
    requires interval > 0
  {
    var n := |bars|;
    if n == 0 || Bucket(interval, x) > bars[n - 1].start then bars + [Fresh(interval, x)]
    else bars[n - 1 := Updated(bars[n - 1], x)]
  }

  lemma BatchSnoc(interval: int, ticks: seq<Tick>, x: Tick)
    requires interval > 0
    ensures Batch(interval, ticks + [x]) == Extended(interval, Batch(interval, ticks), x)
  {
    GroupsSnoc(interval, ticks, x);
    var gs := Groups(interval, ticks);
    SummarySnoc(interval, if gs == [] then [x] else gs[|gs| - 1], x);
  }

  /** Over any further ticks the completed bars stay as they are; only the last bar may still change,
      and its start does not. */
  lemma {:induction false} CompletedBarsStay(interval: int, ticks: seq<Tick>, more: seq<Tick>)
    requires interval > 0 && ticks != []
    ensures var n, after := |Batch(interval, ticks)|, Batch(interval, ticks + more);
            && 1 <= n <= |after|
            && after[..n - 1] == Batch(interval, ticks)[..n - 1]
            && after[n - 1].start == Batch(interval, ticks)[n - 1].start
    decreases |more|
  {
    if more == [] {
      assert ticks + more == ticks;
    } else {
      var k := |more| - 1;
      CompletedBarsStay(interval, ticks, more[..k]);
      assert ticks + more == (ticks + more[..k]) + [more[k]];
      BatchSnoc(interval, ticks + more[..k], more[k]);
      ExtendedKeeps(interval, Batch(interval, ticks + more[..k]), more[k], |Batch(interval, ticks)|);
    }
  }

  lemma ExtendedKeeps(interval: int, bars: seq<BarValue>, x: Tick, n: nat)
    requires interval > 0 && 1 <= n <= |bars|
    ensures var after := Extended(interval, bars, x);
            |after| >= |bars| && after[..n - 1] == bars[..n - 1] && after[n - 1].start == bars[n - 1].start
  {
  }

  /** The bars of every symbol, tick by tick. */
  function Streamed(interval: int, history: seq<Tick>): map<Symbol, seq<BarValue>>
    requires interval > 0
  {
    if history == [] then map[]
    else StreamOne(interval, Streamed(interval, history[..|history| - 1]), history[|history| - 1])
  }

  function ValuesOf(m: map<Symbol, seq<BarValue>>, symbol: Symbol): seq<BarValue> {
    if symbol in m then m[symbol] else []
  }

  function StreamOne(interval: int, m: map<Symbol, seq<BarValue>>, x: Tick): map<Symbol, seq<BarValue>>
    requires interval > 0
  {
    m[x.symbol := Extended(interval, ValuesOf(m, x.symbol), x)]
  }

  /** Streaming gives every symbol the batch bars of its own ticks: symbols do not interfere. */
  lemma {:induction false} StreamedIsBatch(interval: int, history: seq<Tick>, symbol: Symbol)
    requires interval > 0
    ensures ValuesOf(Streamed(interval, history), symbol) == Batch(interval, OfSymbol(history, symbol))
  {
    if history != [] {
      var front, x := history[..|history| - 1], history[|history| - 1];
      StreamedIsBatch(interval, front, symbol);
      if x.symbol == symbol {
        BatchSnoc(interval, OfSymbol(front, symbol), x);
        assert OfSymbol(history, symbol) == OfSymbol(front, symbol) + [x];
      } else {
        assert OfSymbol(history, symbol) == OfSymbol(front, symbol);
      }
    }
  }

  function OfSymbol(ticks: seq<Tick>, symbol: Symbol): (r: seq<Tick>)
    ensures forall t <- r :: t.symbol == symbol
  {
    if ticks == [] then []
    else
      var last := ticks[|ticks| - 1];
      OfSymbol(ticks[..|ticks| - 1], symbol) + (if last.symbol == symbol then [last] else [])
  }

  lemma StreamedSnoc(interval: int, history: seq<Tick>, x: Tick)
    requires interval > 0
    ensures Streamed(interval, history + [x]) == StreamOne(interval, Streamed(interval, history), x)
  {
    assert (history + [x])[..|history|] == history;
  }

  // ---------------------------------------------------------------- the code

  class Bar {
    const symbol: Symbol
    const start: int
    const end: int
    const open: real
    const startVolume: int
    var high: real
    var low: real
    var close: real
    var volume: int

    constructor (interval: int, x: Tick)
      requires interval > 0
      ensures Value() == Fresh(interval, x)
    {
      symbol, start, end := x.symbol, Bucket(interval, x), Bucket(interval, x) + interval;
      open, high, low, close := x.ltp, x.ltp, x.ltp, x.ltp;
      volume, startVolume := 0, x.volume;
    }

    /** The in-place updates of `on_tick`. */
    method Absorb(tick: Tick)
      modifies this
      ensures Value() == Updated(old(Value()), tick)
    {
      high := Max(high, tick.ltp);
      low := Min(low, tick.ltp);
      close := tick.ltp;
      if tick.volume >= startVolume {
        volume := tick.volume - startVolume;
      }
    }

    function Value(): BarValue
      reads this
    {
      BarValue(symbol, start, end, open, high, low, close, volume, startVolume)
    }
  }

  class IntradayStore {
    var bars: map<Symbol, seq<Bar>>

    constructor ()
      ensures bars == map[]
    {
      bars := map[];
    }

    function BarsOf(symbol: Symbol): seq<Bar>
      reads this
    {
      if symbol in bars then bars[symbol] else []
    }

    /** `add_bar`: append, or replace the last bar when it has the same start. */
    method AddBar(bar: Bar)
      modifies this
      ensures var before := old(BarsOf(bar.symbol));
              var same := before != [] && before[|before| - 1].start == bar.start;
              bars == old(bars)[bar.symbol := if same then before[|before| - 1 := bar] else before + [bar]]
    {
      if bar.symbol !in bars {
        bars := bars[bar.symbol := []];
      }
      var list := bars[bar.symbol];
      if list != [] && list[|list| - 1].start == bar.start {
        bars := bars[bar.symbol := list[|list| - 1 := bar]];
      } else {
        bars := bars[bar.symbol := list + [bar]];
      }
    }

    /** `get_bars` with its cutoff time: for a list in order of start, a suffix. */
    method GetBars(symbol: Symbol, cutoff: int) returns (r: seq<Bar>)
      ensures r == Since(BarsOf(symbol), cutoff)
      ensures Ascending(BarsOf(symbol)) ==>
                exists k :: SuffixFrom(BarsOf(symbol), cutoff, k) && r == BarsOf(symbol)[k..]
    {
      var list := BarsOf(symbol);
      r := [];
      for i := 0 to |list|
        invariant r == Since(list[..i], cutoff)
      {
        assert list[..i + 1][..i] == list[..i];
        if list[i].start >= cutoff {
          r := r + [list[i]];
        }
      }
      assert list[..|list|] == list;
      if Ascending(list) {
        ghost var k := SinceIsSuffix(list, cutoff);
      }
    }
  }

  function Since(list: seq<Bar>, cutoff: int): seq<Bar> {
    if list == [] then []
    else
      var last := list[|list| - 1];
      Since(list[..|list| - 1], cutoff) + (if last.start >= cutoff then [last] else [])
  }

  /** The bars of `list` that start at or after the cutoff are exactly those from `k` on. */
  ghost predicate SuffixFrom(list: seq<Bar>, cutoff: int, k: int) {
    && 0 <= k <= |list|
    && (forall i | 0 <= i < k :: list[i].start < cutoff)
    && (forall i | k <= i < |list| :: list[i].start >= cutoff)
  }

  lemma {:induction false} SinceIsSuffix(list: seq<Bar>, cutoff: int) returns (k: nat)
    requires Ascending(list)
    ensures SuffixFrom(list, cutoff, k) && Since(list, cutoff) == list[k..]
  {
    if list == [] {
      k := 0;
    } else {
      var n := |list| - 1;
      var front := list[..n];
      k := SinceIsSuffix(front, cutoff);
      assert forall i | 0 <= i < n :: front[i] == list[i];
      assert k < n ==> front[k].start >= cutoff && list[k].start < list[n].start;
      if list[n].start >= cutoff {
        assert list[k..] == front[k..] + [list[n]];
      } else {
        assert k == n && front[n..] == [] && list[n + 1..] == [];
        k := n + 1;
      }
    }
  }

  ghost predicate Ascending(list: seq<Bar>) {
    forall i, j | 0 <= i < j < |list| :: list[i].start < list[j].start
  }

  /** The list of one symbol's bars has the values `batch`. */
  ghost predicate Matches(list: seq<Bar>, symbol: Symbol, batch: seq<BarValue>)
    reads list
  {
    && |list| == |batch|
    && forall i | 0 <= i < |list| :: list[i].symbol == symbol && list[i].Value() == batch[i]
  }

  ghost predicate Within(list: seq<Bar>, owned: set<Bar>) {
    forall i | 0 <= i < |list| :: list[i] in owned
  }

  /** `list` ends with the object `last`, which is none of the bars before it. */
  ghost predicate EndsWith(list: seq<Bar>, last: Bar) {
    && list != [] && list[|list| - 1] == last
    && forall i | 0 <= i < |list| - 1 :: list[i] != last
  }

  lemma OneMoreBar(interval: int, list: seq<Bar>, batch: seq<BarValue>, bar: Bar, x: Tick, owned: set<Bar>)
    requires interval > 0 && Matches(list, x.symbol, batch) && Within(list, owned)
    requires bar !in list && bar in owned && bar.Value() == Fresh(interval, x)
    requires list == [] || Bucket(interval, x) > list[|list| - 1].start
    ensures Within(list + [bar], owned) && EndsWith(list + [bar], bar)
    ensures Matches(list + [bar], x.symbol, Extended(interval, batch, x))
  {
    assert list != [] ==> list[|list| - 1].Value() == batch[|batch| - 1];
  }

  /** Only the last value of a batch that is not extended changes. */
  lemma LastBarChanged(interval: int, list: seq<Bar>, batch: seq<BarValue>, x: Tick)
    requires interval > 0 && list != [] && |list| == |batch|
    requires Bucket(interval, x) <= batch[|batch| - 1].start
    requires forall i | 0 <= i < |list| - 1 :: list[i].symbol == x.symbol && list[i].Value() == batch[i]
    requires list[|list| - 1].symbol == x.symbol && list[|list| - 1].Value() == Updated(batch[|batch| - 1], x)
    ensures Matches(list, x.symbol, Extended(interval, batch, x))
  {
  }

  /** What has come in: every tick, and the bars they stream to. */
  datatype Log = Log(history: seq<Tick>, values: map<Symbol, seq<BarValue>>)

  function Received(interval: int, log: Log, x: Tick): Log
    requires interval > 0
  {
    Log(log.history + [x], StreamOne(interval, log.values, x))
  }

  /** The builder and the store it feeds. */
  class BarBuilder {
    const interval: int
    const store: IntradayStore
    var current: map<Symbol, Bar>
    ghost var log: Log
    ghost var owned: set<Bar>

    /** The symbol's list in the store has the streamed values and ends with the very object that
        is the builder's current bar; the earlier bars are other objects. */
    ghost predicate ValidAt(s: Symbol)
      reads this, store, owned
    {
      && (s in current <==> s in store.bars)
      && (s in log.values <==> s in store.bars)
      && (s in store.bars ==>
            && Within(store.bars[s], owned)
            && EndsWith(store.bars[s], current[s])
            && Matches(store.bars[s], s, log.values[s]))
    }

    ghost predicate Valid()
      reads this, store, owned
    {
      && interval > 0
      && log.values == Streamed(interval, log.history)
      && forall s :: ValidAt(s)
    }

    /** After any ticks, the list in the store is the batch specification of the symbol's ticks. */
    lemma StoreIsBatch(s: Symbol)
      requires Valid()
      ensures Matches(store.BarsOf(s), s, Batch(interval, OfSymbol(log.history, s)))
      ensures s in current <==> s in store.bars
      ensures s in current ==> EndsWith(store.BarsOf(s), current[s])
      ensures Ascending(store.BarsOf(s))
    {
      assert ValidAt(s);
      var list, ticks := store.BarsOf(s), OfSymbol(log.history, s);
      StreamedIsBatch(interval, log.history, s);
      forall i, j | 0 <= i < j < |list| ensures list[i].start < list[j].start {
        StartsAscend(interval, ticks, i, j);
        assert list[i].Value() == Batch(interval, ticks)[i] && list[j].Value() == Batch(interval, ticks)[j];
      }
    }

    constructor (interval: int, store: IntradayStore)
      requires interval > 0 && store.bars == map[]
      ensures Valid() && log == Log([], map[])
      ensures this.interval == interval && this.store == store
    {
      this.interval, this.store := interval, store;
      current, log, owned := map[], Log([], map[]), {};
    }

    /** `on_tick`. Only the builder's maps and the symbol's current bar can change; a completed
        bar is handed back as it stands. */
    method OnTick(tick: Tick) returns (completed: seq<Bar>)
      requires Valid()
      modifies this, store, if tick.symbol in current then {current[tick.symbol]} else {}
      ensures Valid() && log == Received(interval, old(log), tick)
      ensures forall s | s != tick.symbol :: store.BarsOf(s) == old(store.BarsOf(s))
      ensures var before, after := old(store.BarsOf(tick.symbol)), store.BarsOf(tick.symbol);
              if before != [] && before[|before| - 1].start >= Bucket(interval, tick)
              then after == before && completed == []
              else && |after| == |before| + 1 && before <= after && fresh(after[|before|])
                   && completed == (if before == [] then [] else [before[|before| - 1]])
      ensures forall b <- completed :: unchanged(b)
    {
      assert ValidAt(tick.symbol);
      completed := [];
      var bucketStart := Bucket(interval, tick);
      if tick.symbol !in current {
        StartBar(tick);
      } else if bucketStart > current[tick.symbol].start {
        completed := completed + [current[tick.symbol]];
        StartBar(tick);
      } else {
        UpdateBar(tick);
      }
    }

    /** The first two branches of `on_tick`: a fresh bar becomes current and goes to the store. */
    method StartBar(tick: Tick)
      requires Valid()
      requires tick.symbol in current ==> Bucket(interval, tick) > current[tick.symbol].start
      modifies this, store
      ensures Valid() && log == Received(interval, old(log), tick)
      ensures forall s | s != tick.symbol :: store.BarsOf(s) == old(store.BarsOf(s))
      ensures var before, after := old(store.BarsOf(tick.symbol)), store.BarsOf(tick.symbol);
              |after| == |before| + 1 && before <= after && fresh(after[|before|])
    {
      assert ValidAt(tick.symbol);
      ghost var list := store.BarsOf(tick.symbol);
      StreamedSnoc(interval, log.history, tick);
      var bar := AddFresh(tick);
      OneMoreBar(interval, list, ValuesOf(old(log).values, tick.symbol), bar, tick, owned);
      forall s ensures ValidAt(s) {
        if s != tick.symbol {
          assert old(ValidAt(s));
        }
      }
    }

    method AddFresh(tick: Tick) returns (bar: Bar)
      requires interval > 0
      requires var list := store.BarsOf(tick.symbol);
               list != [] ==> Bucket(interval, tick) > list[|list| - 1].start
      modifies this, store
      ensures fresh(bar) && bar.Value() == Fresh(interval, tick)
      ensures current == old(current)[tick.symbol := bar]
      ensures store.bars == old(store.bars)[tick.symbol := old(store.BarsOf(tick.symbol)) + [bar]]
      ensures log == Received(interval, old(log), tick)
      ensures owned == old(owned) + {bar}
    {
      bar := new Bar(interval, tick);
      current := current[tick.symbol := bar];
      store.AddBar(bar);
      owned := owned + {bar};
      log := Received(interval, log, tick);
    }

    /** The last branch: the current bar is updated in place and offered to the store again. */
    method UpdateBar(tick: Tick)
      requires Valid()
      requires tick.symbol in current && Bucket(interval, tick) <= current[tick.symbol].start
      modifies this`log, store, current[tick.symbol]
      ensures Valid() && log == Received(interval, old(log), tick)
      ensures store.bars == old(store.bars)
    {
      assert ValidAt(tick.symbol);
      ghost var list, batch := store.bars[tick.symbol], log.values[tick.symbol];
      var bar := current[tick.symbol];
      assert bar.Value() == batch[|batch| - 1];
      StreamedSnoc(interval, log.history, tick);
      AbsorbCurrent(tick);
      LastBarChanged(interval, list, batch, tick);
      forall s ensures ValidAt(s) {
        assert old(ValidAt(s));
      }
    }

    method AbsorbCurrent(tick: Tick)
      requires interval > 0 && tick.symbol in current && current[tick.symbol].symbol == tick.symbol
      requires tick.symbol in store.bars && EndsWith(store.bars[tick.symbol], current[tick.symbol])
      modifies this`log, store, current[tick.symbol]
      ensures current[tick.symbol].Value() == Updated(old(current[tick.symbol].Value()), tick)
      ensures store.bars == old(store.bars)
      ensures log == Received(interval, old(log), tick)
    {
      ghost var list := store.bars[tick.symbol];
      var bar := current[tick.symbol];
      bar.Absorb(tick);
      store.AddBar(bar);
      assert list[|list| - 1 := bar] == list;
      log := Received(interval, log, tick);
    }
  }
}
