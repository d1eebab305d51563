/**
 The two-pass deduplication of src/data_ingestion/exchange_filings.py.

 Each filing carries the keys of the two passes, which the program computes from its symbol and
 headline: `brief` for pass 1 and `subject` for pass 2. `filedAt` is absent when the filing has no
 timestamp.
 */
module FilingDedup {
  import opened Containers

  datatype Exchange = NSE | BSE | OtherExchange

  datatype Key = Key(text: string)

  datatype Filing = Filing(brief: Key, subject: Key, exchange: Exchange, filedAt: Option<int>, content: string)

  type KeyOf = Filing -> Key

  type Beats = (Filing, Filing) -> bool

  function Brief(f: Filing): Key { f.brief }

  function Subject(f: Filing): Key { f.subject }

  /** Pass 1 replaces only a BSE filing, and only by an NSE one. */
  predicate ByExchange(f: Filing, kept: Filing) {
    f.exchange == NSE && kept.exchange == BSE
  }

  predicate Later(a: Option<int>, b: Option<int>) {
    a.Some? && (b.None? || a.value > b.value)
  }

  /** Pass 2 replaces by a later filing; no timestamp is earlier than any. */
  predicate ByTime(f: Filing, kept: Filing) {
    Later(f.filedAt, kept.filedAt)
  }

  // ---------------------------------------------------------------- one pass over the filings

  function Step(d: Dict<Key, Filing>, f: Filing, key: KeyOf, beats: Beats): (r: Dict<Key, Filing>)
    requires d.Valid()
    ensures r.Valid()
  {
    if key(f) !in d.vals || beats(f, d.vals[key(f)]) then d.Put(key(f), f) else d
  }

  function Pass(filings: seq<Filing>, key: KeyOf, beats: Beats): (d: Dict<Key, Filing>)
    ensures d.Valid()
  {
    if filings == [] then EmptyDict()
    else Step(Pass(filings[..|filings| - 1], key, beats), filings[|filings| - 1], key, beats)
  }

  function Dedup(filings: seq<Filing>): seq<Filing> {
    Pass(Pass(filings, Brief, ByExchange).Values(), Subject, ByTime).Values()
  }

  function Group(filings: seq<Filing>, key: KeyOf, k: Key): (g: seq<Filing>)
    ensures forall f <- g :: f in filings && key(f) == k
  {
    if filings == [] then []
    else
      var before, last := filings[..|filings| - 1], filings[|filings| - 1];
      assert filings == before + [last];
      if key(last) == k then Group(before, key, k) + [last] else Group(before, key, k)
  }

  /** The keys in the order of their first filings. */
  function FirstKeys(filings: seq<Filing>, key: KeyOf): seq<Key> {
    if filings == [] then []
    else
      var before, k := FirstKeys(filings[..|filings| - 1], key), key(filings[|filings| - 1]);
      if k in before then before else before + [k]
  }

  /** The one that is left when each filing in turn may replace the one kept. */
  function Winner(g: seq<Filing>, beats: Beats): (w: Filing)
    requires g != []
    ensures w in g
  {
    if |g| == 1 then g[0]
    else
      var w := Winner(g[..|g| - 1], beats);
      if beats(g[|g| - 1], w) then g[|g| - 1] else w
  }

  lemma GroupSnoc(filings: seq<Filing>, f: Filing, key: KeyOf, k: Key)
    ensures Group(filings + [f], key, k) == if key(f) == k then Group(filings, key, k) + [f] else Group(filings, key, k)
  {
    assert (filings + [f])[..|filings|] == filings;
  }

  lemma WinnerSnoc(g: seq<Filing>, f: Filing, beats: Beats)
    requires g != []
    ensures Winner(g + [f], beats) == if beats(f, Winner(g, beats)) then f else Winner(g, beats)
  {
    assert (g + [f])[..|g|] == g;
  }

  /** The filings of a key are there exactly when the key is, and it holds their winner. */
  ghost predicate HoldsWinner(d: Dict<Key, Filing>, filings: seq<Filing>, key: KeyOf, beats: Beats, k: Key) {
    var g := Group(filings, key, k);
    if g == [] then k !in d.vals else k in d.vals && d.vals[k] == Winner(g, beats)
  }

  /** A pass keeps, for each key, the winner among its filings. */
  lemma {:induction false} PassKeepsWinners(filings: seq<Filing>, key: KeyOf, beats: Beats, k: Key)
    ensures HoldsWinner(Pass(filings, key, beats), filings, key, beats, k)
  {
    if filings != [] {
      var before, f := filings[..|filings| - 1], filings[|filings| - 1];
      PassKeepsWinners(before, key, beats, k);
      assert filings == before + [f];
      assert Pass(filings, key, beats) == Step(Pass(before, key, beats), f, key, beats);
      StepKeepsWinners(Pass(before, key, beats), before, f, key, beats, k);
    }
  }

  lemma StepKeepsWinners(d: Dict<Key, Filing>, before: seq<Filing>, f: Filing, key: KeyOf, beats: Beats, k: Key)
    requires d.Valid() && HoldsWinner(d, before, key, beats, k)
    ensures HoldsWinner(Step(d, f, key, beats), before + [f], key, beats, k)
  {
    GroupSnoc(before, f, key, k);
    if Group(before, key, k) != [] {
      WinnerSnoc(Group(before, key, k), f, beats);
    }
  }

  /** And its keys are in order of first appearance. */
  lemma {:induction false} PassKeepsFirstKeys(filings: seq<Filing>, key: KeyOf, beats: Beats)
    ensures Pass(filings, key, beats).keys == FirstKeys(filings, key)
  {
    if filings != [] {
      PassKeepsFirstKeys(filings[..|filings| - 1], key, beats);
    }
  }

  lemma {:induction false} GroupHas(filings: seq<Filing>, key: KeyOf, f: Filing)
    requires f in filings
    ensures Group(filings, key, key(f)) != []
  {
    var before, last := filings[..|filings| - 1], filings[|filings| - 1];
    assert filings == before + [last];
    GroupSnoc(before, last, key, key(f));
    if f in before {
      GroupHas(before, key, f);
    }
  }

  ghost predicate DifferentKeys(filings: seq<Filing>, key: KeyOf) {
    forall i, j | 0 <= i < j < |filings| :: key(filings[i]) != key(filings[j])
  }

  lemma PassValues(filings: seq<Filing>, key: KeyOf, beats: Beats)
    ensures var d, r := Pass(filings, key, beats), Pass(filings, key, beats).Values();
            && (forall i | 0 <= i < |r| :: r[i] in filings && key(r[i]) == d.keys[i])
            && DifferentKeys(r, key)
  {
    var d := Pass(filings, key, beats);
    var r := d.Values();
    forall i | 0 <= i < |r| ensures r[i] in filings && key(r[i]) == d.keys[i] {
      PassKeepsWinners(filings, key, beats, d.keys[i]);
      assert d.keys[i] in d.keys && r[i] in Group(filings, key, d.keys[i]);
    }
  }

  lemma ValueOf(r: seq<Filing>, x: Filing) returns (i: nat)
    requires x in r
    ensures i < |r| && r[i] == x
  {
    i :| 0 <= i < |r| && r[i] == x;
  }

  /** The filing kept for the key of `f`. */
  lemma KeptFor(filings: seq<Filing>, key: KeyOf, beats: Beats, f: Filing) returns (x: Filing)
    requires f in filings
    ensures x in Pass(filings, key, beats).Values() && x in filings && key(x) == key(f)
  {
    var d := Pass(filings, key, beats);
    PassValues(filings, key, beats);
    PassKeepsWinners(filings, key, beats, key(f));
    GroupHas(filings, key, f);
    var i :| 0 <= i < |d.keys| && d.keys[i] == key(f);
    x := d.Values()[i];
  }

  // ---------------------------------------------------------------- who wins

  /** Pass 1 keeps the first filing, unless that is from BSE and there is one from NSE: then the
      first from NSE. */
  lemma {:induction false} ExchangeWinner(g: seq<Filing>)
    requires g != []
    ensures if g[0].exchange == BSE && FirstNSE(g) < |g| then Winner(g, ByExchange) == g[FirstNSE(g)]
            else Winner(g, ByExchange) == g[0]
  {
    if |g| > 1 {
      var n := |g| - 1;
      ExchangeWinner(g[..n]);
      FirstNSESnoc(g[..n], g[n]);
      assert g == g[..n] + [g[n]];
    }
  }

  /** Index of the first NSE filing, or the length. */
  function FirstNSE(g: seq<Filing>): (i: nat)
    ensures i <= |g|
    ensures forall j | 0 <= j < i :: g[j].exchange != NSE
    ensures i < |g| ==> g[i].exchange == NSE
  {
    if g == [] || g[0].exchange == NSE then 0 else 1 + FirstNSE(g[1..])
  }

  lemma FirstNSESnoc(g: seq<Filing>, f: Filing)
    ensures FirstNSE(g + [f]) == if FirstNSE(g) < |g| || f.exchange == NSE then FirstNSE(g) else |g| + 1
  {
    var i, j, more := FirstNSE(g), FirstNSE(g + [f]), g + [f];
    assert forall k | 0 <= k < |g| :: more[k] == g[k];
    assert more[|g|] == f;
  }

  /** Pass 2 keeps the earliest in the list of those with the latest timestamp. */
  lemma {:induction false} TimeWinner(g: seq<Filing>) returns (i: nat)
    requires g != []
    ensures FirstLatest(g, i) && Winner(g, ByTime) == g[i]
  {
    if |g| == 1 {
      i := 0;
    } else {
      var n := |g| - 1;
      i := TimeWinner(g[..n]);
      assert g == g[..n] + [g[n]];
      FirstLatestSnoc(g[..n], g[n], i);
      if ByTime(g[n], g[i]) {
        i := n;
      }
    }
  }

  lemma FirstLatestSnoc(g: seq<Filing>, f: Filing, i: nat)
    requires FirstLatest(g, i)
    ensures FirstLatest(g + [f], if ByTime(f, g[i]) then |g| else i)
  {
    var more, k := g + [f], if ByTime(f, g[i]) then |g| else i;
    assert more[|g|] == f && forall j | 0 <= j < |g| :: more[j] == g[j];
    forall j | 0 <= j < |more| ensures Outdates(more, k, j) {
      assert j < |g| ==> Outdates(g, i, j);
    }
  }

  /** No other filing is later than the i-th, and every earlier one in the list is older; a filing
      without a timestamp is older than any with one. */
  ghost predicate FirstLatest(g: seq<Filing>, i: int) {
    0 <= i < |g| && forall j | 0 <= j < |g| :: Outdates(g, i, j)
  }

  predicate Outdates(g: seq<Filing>, i: int, j: int)
    requires 0 <= i < |g| && 0 <= j < |g|
  {
    var a, b := g[i].filedAt, g[j].filedAt;
    if j < i then a.Some? && (b.None? || a.value > b.value)
    else b.None? || (a.Some? && a.value >= b.value)
  }

  // ---------------------------------------------------------------- the result, from the fields

  function WithBrief(filings: seq<Filing>, k: Key): (g: seq<Filing>)
    ensures forall f :: f in g <==> f in filings && f.brief == k
  {
    if filings == [] then []
    else
      var before, last := filings[..|filings| - 1], filings[|filings| - 1];
      assert filings == before + [last];
      if last.brief == k then WithBrief(before, k) + [last] else WithBrief(before, k)
  }

  function WithSubject(filings: seq<Filing>, k: Key): (g: seq<Filing>)
    ensures forall f :: f in g <==> f in filings && f.subject == k
  {
    if filings == [] then []
    else
      var before, last := filings[..|filings| - 1], filings[|filings| - 1];
      assert filings == before + [last];
      if last.subject == k then WithSubject(before, k) + [last] else WithSubject(before, k)
  }

  /** Each key once, in the order of first appearance. */
  function Firsts(keys: seq<Key>): (r: seq<Key>)
    ensures forall k :: k in r <==> k in keys
    ensures Distinct(r)
  {
    if keys == [] then []
    else
      var before, k := Firsts(keys[..|keys| - 1]), keys[|keys| - 1];
      assert keys == keys[..|keys| - 1] + [k];
      if k in before then before else before + [k]
  }

  function Briefs(filings: seq<Filing>): (r: seq<Key>)
    ensures |r| == |filings| && forall i | 0 <= i < |r| :: r[i] == filings[i].brief
  {
    seq(|filings|, i requires 0 <= i < |filings| => filings[i].brief)
  }

  function Subjects(filings: seq<Filing>): (r: seq<Key>)
    ensures |r| == |filings| && forall i | 0 <= i < |r| :: r[i] == filings[i].subject
  {
    seq(|filings|, i requires 0 <= i < |filings| => filings[i].subject)
  }

  /** The first filing, unless it is from BSE and there is one from NSE: then the first from NSE. */
  ghost predicate Preferred(g: seq<Filing>, x: Filing) {
    && g != []
    && if g[0].exchange == BSE && exists f <- g :: f.exchange == NSE
       then exists i :: 0 <= i < |g| && x == g[i] && x.exchange == NSE && forall j | 0 <= j < i :: g[j].exchange != NSE
       else x == g[0]
  }

  ghost predicate Latest(g: seq<Filing>, x: Filing) {
    exists i :: FirstLatest(g, i) && x == g[i]
  }

  /** `kept` has for each brief, in order of first appearance, the preferred filing. */
  ghost predicate AfterFirst(filings: seq<Filing>, kept: seq<Filing>) {
    Briefs(kept) == Firsts(Briefs(filings)) && forall x <- kept :: Preferred(WithBrief(filings, x.brief), x)
  }

  /** `r` has for each subject of `kept`, in order of first appearance, the first of the latest. */
  ghost predicate AfterSecond(kept: seq<Filing>, r: seq<Filing>) {
    Subjects(r) == Firsts(Subjects(kept)) && forall x <- r :: Latest(WithSubject(kept, x.subject), x)
  }

  lemma {:induction false} GroupIsWithBrief(filings: seq<Filing>, k: Key)
    ensures Group(filings, Brief, k) == WithBrief(filings, k)
  {
    if filings != [] {
      GroupIsWithBrief(filings[..|filings| - 1], k);
    }
  }

  lemma {:induction false} GroupIsWithSubject(filings: seq<Filing>, k: Key)
    ensures Group(filings, Subject, k) == WithSubject(filings, k)
  {
    if filings != [] {
      GroupIsWithSubject(filings[..|filings| - 1], k);
    }
  }

  lemma {:induction false} FirstKeysAreFirsts(filings: seq<Filing>)
    ensures FirstKeys(filings, Brief) == Firsts(Briefs(filings))
    ensures FirstKeys(filings, Subject) == Firsts(Subjects(filings))
  {
    if filings != [] {
      var n := |filings| - 1;
      FirstKeysAreFirsts(filings[..n]);
      assert Briefs(filings)[..n] == Briefs(filings[..n]) && Subjects(filings)[..n] == Subjects(filings[..n]);
    }
  }

  lemma WinnerIsPreferred(g: seq<Filing>)
    requires g != []
    ensures Preferred(g, Winner(g, ByExchange))
  {
    ExchangeWinner(g);
    var i := FirstNSE(g);
    if i < |g| {
      assert g[i] in g && g[i].exchange == NSE;
    } else {
      assert forall f <- g :: f.exchange != NSE;
    }
  }

  lemma ValueWins(filings: seq<Filing>, key: KeyOf, beats: Beats, x: Filing)
    requires x in Pass(filings, key, beats).Values()
    ensures Group(filings, key, key(x)) != [] && x == Winner(Group(filings, key, key(x)), beats)
  {
    var d := Pass(filings, key, beats);
    var i := ValueOf(d.Values(), x);
    PassValues(filings, key, beats);
    assert d.keys[i] in d.keys && key(x) == d.keys[i];
    PassKeepsWinners(filings, key, beats, d.keys[i]);
  }

  lemma FirstPassIs(filings: seq<Filing>)
    ensures AfterFirst(filings, Pass(filings, Brief, ByExchange).Values())
  {
    var kept := Pass(filings, Brief, ByExchange).Values();
    PassValues(filings, Brief, ByExchange);
    PassKeepsFirstKeys(filings, Brief, ByExchange);
    FirstKeysAreFirsts(filings);
    assert forall i | 0 <= i < |kept| :: Brief(kept[i]) == Pass(filings, Brief, ByExchange).keys[i];
    assert Briefs(kept) == Pass(filings, Brief, ByExchange).keys;
    forall x | x in kept ensures Preferred(WithBrief(filings, x.brief), x) {
      ValueWins(filings, Brief, ByExchange, x);
      GroupIsWithBrief(filings, x.brief);
      WinnerIsPreferred(WithBrief(filings, x.brief));
    }
  }

  lemma SecondPassIs(kept: seq<Filing>)
    ensures AfterSecond(kept, Pass(kept, Subject, ByTime).Values())
  {
    var r := Pass(kept, Subject, ByTime).Values();
    PassValues(kept, Subject, ByTime);
    PassKeepsFirstKeys(kept, Subject, ByTime);
    FirstKeysAreFirsts(kept);
    assert forall i | 0 <= i < |r| :: Subject(r[i]) == Pass(kept, Subject, ByTime).keys[i];
    assert Subjects(r) == Pass(kept, Subject, ByTime).keys;
    forall x | x in r ensures Latest(WithSubject(kept, x.subject), x) {
      ValueWins(kept, Subject, ByTime, x);
      GroupIsWithSubject(kept, x.subject);
      var i := TimeWinner(WithSubject(kept, x.subject));
    }
  }

  /** The result of the two passes, in terms of the filings' own fields. */
  lemma DedupIs(filings: seq<Filing>) returns (kept: seq<Filing>)
    ensures AfterFirst(filings, kept) && AfterSecond(kept, Dedup(filings))
  {
    kept := Pass(filings, Brief, ByExchange).Values();
    FirstPassIs(filings);
    SecondPassIs(kept);
  }

  // ---------------------------------------------------------------- the whole of it

  /** What a pass keeps out of filings with different keys of another kind has different keys of
      that kind too. */
  lemma PassKeepsDifferent(filings: seq<Filing>, key: KeyOf, beats: Beats, other: KeyOf)
    requires DifferentKeys(filings, other)
    ensures DifferentKeys(Pass(filings, key, beats).Values(), other)
  {
    var r := Pass(filings, key, beats).Values();
    PassValues(filings, key, beats);
    forall i, j | 0 <= i < j < |r| ensures other(r[i]) != other(r[j]) {
      assert r[i] in filings && r[j] in filings && key(r[i]) != key(r[j]);
      var a :| 0 <= a < |filings| && filings[a] == r[i];
      var b :| 0 <= b < |filings| && filings[b] == r[j];
    }
  }

  /** The result holds only filings that were there, all with different keys of both kinds. */
  lemma ResultIsDistinct(filings: seq<Filing>)
    ensures DifferentKeys(Dedup(filings), Subject) && DifferentKeys(Dedup(filings), Brief)
    ensures forall x <- Dedup(filings) :: x in filings
  {
    var p, r := Pass(filings, Brief, ByExchange).Values(), Dedup(filings);
    PassValues(filings, Brief, ByExchange);
    PassValues(p, Subject, ByTime);
    PassKeepsDifferent(p, Subject, ByTime, Brief);
    forall x | x in r ensures x in filings {
      var i := ValueOf(r, x);
      var j := ValueOf(p, r[i]);
    }
  }

  /** Every filing reaches the result by one step of each key. */
  lemma EveryFilingReachesResult(filings: seq<Filing>, f: Filing)
    requires f in filings
    ensures exists g, h :: g in filings && h in Dedup(filings) && g.brief == f.brief && h.subject == g.subject
  {
    var g := KeptFor(filings, Brief, ByExchange, f);
    var h := KeptFor(Pass(filings, Brief, ByExchange).Values(), Subject, ByTime, g);
    assert g.brief == f.brief && h.subject == g.subject;
  }

  /** A pass over filings with different keys changes nothing, the order included. */
  lemma {:induction false} PassOfDifferent(filings: seq<Filing>, key: KeyOf, beats: Beats)
    requires DifferentKeys(filings, key)
    ensures Pass(filings, key, beats).Values() == filings
  {
    if filings != [] {
      var before, f := filings[..|filings| - 1], filings[|filings| - 1];
      var b := Pass(before, key, beats);
      PassOfDifferent(before, key, beats);
      NewKeyNotIn(before, f, key, beats);
      ValuesOfNew(b, key(f), f);
    }
  }

  lemma ValuesOfNew(d: Dict<Key, Filing>, k: Key, f: Filing)
    requires d.Valid() && k !in d.vals
    ensures d.Put(k, f).Values() == d.Values() + [f]
  {
  }

  lemma NewKeyNotIn(before: seq<Filing>, f: Filing, key: KeyOf, beats: Beats)
    requires forall i | 0 <= i < |before| :: key(before[i]) != key(f)
    ensures key(f) !in Pass(before, key, beats).vals
  {
    PassKeepsWinners(before, key, beats, key(f));
    NoGroup(before, key, key(f));
  }

  lemma {:induction false} NoGroup(filings: seq<Filing>, key: KeyOf, k: Key)
    requires forall i | 0 <= i < |filings| :: key(filings[i]) != k
    ensures Group(filings, key, k) == []
  {
    if filings != [] {
      NoGroup(filings[..|filings| - 1], key, k);
    }
  }

  /** Deduplicating again changes nothing. */
  lemma DedupIdempotent(filings: seq<Filing>)
    ensures Dedup(Dedup(filings)) == Dedup(filings)
  {
    var r := Dedup(filings);
    ResultIsDistinct(filings);
    PassOfDifferent(r, Brief, ByExchange);
    PassOfDifferent(r, Subject, ByTime);
  }

  // ---------------------------------------------------------------- the code

  /** The loop of pass 1. */
  method PassOne(filings: seq<Filing>) returns (seen: Dict<Key, Filing>)
    ensures seen == Pass(filings, Brief, ByExchange)
  {
    seen := EmptyDict<Key, Filing>();
    for i := 0 to |filings|
      invariant seen == Pass(filings[..i], Brief, ByExchange)
    {
      var f := filings[i];
      assert filings[..i + 1][..i] == filings[..i];
      if f.brief !in seen.vals {
        seen := seen.Put(f.brief, f);
      } else if f.exchange == NSE && seen.vals[f.brief].exchange == BSE {
        seen := seen.Put(f.brief, f);
      }
    }
    assert filings[..|filings|] == filings;
  }

  /** The loop of pass 2. */
  method PassTwo(pass1: seq<Filing>) returns (buckets: Dict<Key, Filing>)
    ensures buckets == Pass(pass1, Subject, ByTime)
  {
    buckets := EmptyDict<Key, Filing>();
    for i := 0 to |pass1|
      invariant buckets == Pass(pass1[..i], Subject, ByTime)
    {
      var f := pass1[i];
      assert pass1[..i + 1][..i] == pass1[..i];
      if f.subject !in buckets.vals {
        buckets := buckets.Put(f.subject, f);
      } else {
        var existing := buckets.vals[f.subject];
        if f.filedAt.Some? && (existing.filedAt.None? || f.filedAt.value > existing.filedAt.value) {
          buckets := buckets.Put(f.subject, f);
        }
      }
    }
    assert pass1[..|pass1|] == pass1;
  }

  /** `_dedup_filings`. */
  method DedupFilings(filings: seq<Filing>) returns (r: seq<Filing>)
    ensures r == Dedup(filings)
  {
    var seen := PassOne(filings);
    var buckets := PassTwo(seen.Values());
    r := buckets.Values();
  }
}
