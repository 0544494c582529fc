/** What a relative spread says about two prices, by cross-multiplication. */
module Prices {
  import opened Wrappers
  import opened Order

  /** Both prices are positive and the bid does not exceed the ask. */
  predicate Tradable(bid: Option<real>, ask: Option<real>) {
    bid.Some? && ask.Some? && 0.0 < bid.value <= ask.value
  }

  /** The difference of the prices in percent of their mean, which is there exactly for tradable prices. */
  predicate IsSpread(spread: Option<real>, bid: Option<real>, ask: Option<real>) {
    && (spread.Some? <==> Tradable(bid, ask))
    && (spread.Some? ==> spread.value * (bid.value + ask.value) == 200.0 * (ask.value - bid.value))
  }

  lemma SpreadMeans(bid: real, ask: real)
    requires 0.0 < bid <= ask
    ensures (ask - bid) / ((bid + ask) / 2.0) * 100.0 * (bid + ask) == 200.0 * (ask - bid)
  {
    var mean := (bid + ask) / 2.0;
    var share := (ask - bid) / mean;
    assert share * mean == ask - bid;
    assert share * 100.0 * (bid + ask) == share * mean * 200.0;
  }

  lemma Scales(x: real, y: real, k: real)
    requires k > 0.0
    ensures x < y <==> x * k < y * k
  {
  }

  /** The smaller difference relative to the sum of the prices; untradable prices last. */
  predicate Tighter(bid1: Option<real>, ask1: Option<real>, bid2: Option<real>, ask2: Option<real>) {
    && Tradable(bid1, ask1)
    && (Tradable(bid2, ask2) ==>
          (ask1.value - bid1.value) * (bid2.value + ask2.value) < (ask2.value - bid2.value) * (bid1.value + ask1.value))
  }

  /** Comparing spreads is comparing differences relative to sums. */
  lemma SpreadsCompare(b1: real, a1: real, s1: real, b2: real, a2: real, s2: real)
    requires 0.0 < b1 <= a1 && 0.0 < b2 <= a2
    requires s1 * (b1 + a1) == 200.0 * (a1 - b1) && s2 * (b2 + a2) == 200.0 * (a2 - b2)
    ensures s1 < s2 <==> (a1 - b1) * (b2 + a2) < (a2 - b2) * (b1 + a1)
  {
    var m, n := b1 + a1, b2 + a2;
    assert (a1 - b1) * n * 200.0 == s1 * m * n;
    assert (a2 - b2) * m * 200.0 == s2 * n * m;
    Scales(s1, s2, m * n);
  }

  lemma TighterIsSmaller(b1: Option<real>, a1: Option<real>, s1: Option<real>, b2: Option<real>, a2: Option<real>, s2: Option<real>)
    requires IsSpread(s1, b1, a1) && IsSpread(s2, b2, a2)
    ensures Smaller(s1, s2) <==> Tighter(b1, a1, b2, a2)
  {
    if s1.Some? && s2.Some? {
      SpreadsCompare(b1.value, a1.value, s1.value, b2.value, a2.value, s2.value);
    }
  }
}
