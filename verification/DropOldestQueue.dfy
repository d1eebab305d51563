/** Python's bounded queue under the put / get-oldest / put-again idiom, taken as one atomic step. */
module DropOldest {

  /** `q.full()`: a maximum of zero or less means no bound. */
  predicate Full<T>(q: seq<T>, max: int) {
    0 < max <= |q|
  }

  /** Offer one item, dropping the oldest one when the queue is full. */
  function Offer<T>(q: seq<T>, max: int, x: T): seq<T> {
    if Full(q, max) then q[1..] + [x] else q + [x]
  }

  function OfferAll<T>(q: seq<T>, max: int, xs: seq<T>): seq<T> {
    if xs == [] then q
    else Offer(OfferAll(q, max, xs[..|xs| - 1]), max, xs[|xs| - 1])
  }

  /** The newest `max` items of `s`. */
  function Newest<T>(s: seq<T>, max: int): seq<T> {
    if 0 < max < |s| then s[|s| - max..] else s
  }

  lemma NewestSnoc<T>(s: seq<T>, max: int, x: T)
    ensures Offer(Newest(s, max), max, x) == Newest(s + [x], max)
  {
    if 0 < max <= |s| {
      var k := |s| - max;
      assert (s + [x])[k + 1..] == s[k + 1..] + [x];
      assert Newest(s, max) == s[k..] && s[k..][1..] == s[k + 1..];
    }
  }

  /** However many items are offered, a bounded queue ends with the newest `max` of what it
      held followed by what it was offered, in order; an unbounded one ends with everything. */
  lemma {:induction false} OfferAllKeepsNewest<T>(q: seq<T>, max: int, xs: seq<T>)
    requires max > 0 ==> |q| <= max
    ensures OfferAll(q, max, xs) == Newest(q + xs, max)
  {
    if xs == [] {
      assert q + xs == q;
    } else {
      var n := |xs| - 1;
      OfferAllKeepsNewest(q, max, xs[..n]);
      NewestSnoc(q + xs[..n], max, xs[n]);
      assert q + xs == (q + xs[..n]) + [xs[n]];
    }
  }

  lemma OfferAllSnoc<T>(q: seq<T>, max: int, xs: seq<T>, x: T)
    ensures OfferAll(q, max, xs + [x]) == Offer(OfferAll(q, max, xs), max, x)
  {
    assert (xs + [x])[..|xs|] == xs;
  }

  lemma {:induction false} OfferAllJoin<T>(q: seq<T>, max: int, xs: seq<T>, ys: seq<T>)
    ensures OfferAll(q, max, xs + ys) == OfferAll(OfferAll(q, max, xs), max, ys)
  {
    if ys == [] {
      assert xs + ys == xs;
    } else {
      var n := |ys| - 1;
      OfferAllJoin(q, max, xs, ys[..n]);
      OfferAllSnoc(q, max, xs + ys[..n], ys[n]);
      assert (xs + ys[..n]) + [ys[n]] == xs + ys;
    }
  }
}
