/**
 * `compute_vwap` (set50.test7.py:83-87): the volume-weighted average price
 * `sum(price * volume) / sum(volume)` over all trades, whatever their type.
 * The page calls it only on a non-empty frame and prints "N/A" otherwise
 * (lines 174-178); here an empty or zero-volume list gives `None`.
 */
module Vwap {
  import opened Wrappers
  import opened Trades
  import opened Volumes

  /** One trade's `price * volume`. */
  function Weighted(t: Trade): real {
    t.price * t.volume as real
  }

  /** `(prices * volumes).sum()`. */
  function Notional(trades: seq<Trade>): real {
    if trades == [] then 0.0 else Weighted(trades[0]) + Notional(trades[1..])
  }

  function ComputeVwap(trades: seq<Trade>): (r: Option<real>)
    ensures r.Some? <==> TotalVolume(trades) > 0
    ensures r.Some? ==> r.value * TotalVolume(trades) as real == Notional(trades)
  {
    var volume := TotalVolume(trades);
    if volume == 0 then None else Some(Notional(trades) / volume as real)
  }

  predicate PricesWithin(trades: seq<Trade>, lo: real, hi: real) {
    forall i | 0 <= i < |trades| :: lo <= trades[i].price <= hi
  }

  /** The notional lies between the volume priced at the lowest and at the highest price. */
  lemma {:induction false} NotionalBounds(trades: seq<Trade>, lo: real, hi: real)
    requires PricesWithin(trades, lo, hi)
    ensures lo * TotalVolume(trades) as real <= Notional(trades) <= hi * TotalVolume(trades) as real
  {
    if trades != [] {
      var t := trades[0];
      assert PricesWithin(trades[1..], lo, hi);
      NotionalBounds(trades[1..], lo, hi);
      WeightedBounds(t, lo, hi);
      Distribute(lo, t.volume as real, TotalVolume(trades[1..]) as real);
      Distribute(hi, t.volume as real, TotalVolume(trades[1..]) as real);
    }
  }

  lemma WeightedBounds(t: Trade, lo: real, hi: real)
    requires lo <= t.price <= hi
    ensures lo * t.volume as real <= Weighted(t) <= hi * t.volume as real
  {
    ScaleMonotone(lo, t.price, t.volume as real);
    ScaleMonotone(t.price, hi, t.volume as real);
  }

  lemma ScaleMonotone(x: real, y: real, v: real)
    requires x <= y && 0.0 <= v
    ensures x * v <= y * v
  {
  }

  lemma Distribute(k: real, a: real, b: real)
    ensures k * (a + b) == k * a + k * b
  {
  }

  /** When all prices lie in [lo, hi] and some volume traded, the VWAP lies in [lo, hi] too. */
  lemma VwapWithinPrices(trades: seq<Trade>, lo: real, hi: real)
    requires PricesWithin(trades, lo, hi) && TotalVolume(trades) > 0
    ensures lo <= ComputeVwap(trades).value <= hi
  {
    NotionalBounds(trades, lo, hi);
    QuotientBounds(Notional(trades), TotalVolume(trades) as real, lo, hi);
  }

  lemma QuotientBounds(n: real, v: real, lo: real, hi: real)
    requires 0.0 < v && lo * v <= n <= hi * v
    ensures lo <= n / v <= hi
  {
    var w := n / v;
    assert w * v == n;
    if w < lo {
      ScaleStrict(w, lo, v);
    }
    if hi < w {
      ScaleStrict(hi, w, v);
    }
  }

  lemma ScaleStrict(x: real, y: real, v: real)
    requires x < y && 0.0 < v
    ensures x * v < y * v
  {
  }

  function MinPrice(trades: seq<Trade>): (m: real)
    requires trades != []
    ensures PricesWithin(trades, m, MaxPrice(trades))
    ensures exists i | 0 <= i < |trades| :: trades[i].price == m
  {
    if |trades| == 1 then trades[0].price
    else
      var rest := MinPrice(trades[1..]);
      assert trades[1..][0] == trades[1];
      if trades[0].price <= rest then trades[0].price else rest
  }

  function MaxPrice(trades: seq<Trade>): (m: real)
    requires trades != []
    ensures forall i | 0 <= i < |trades| :: trades[i].price <= m
    ensures exists i | 0 <= i < |trades| :: trades[i].price == m
  {
    if |trades| == 1 then trades[0].price
    else
      var rest := MaxPrice(trades[1..]);
      assert trades[1..][0] == trades[1];
      if trades[0].price >= rest then trades[0].price else rest
  }

  /** With positive total volume the VWAP lies between the lowest and the highest trade price. */
  lemma VwapBetweenMinAndMax(trades: seq<Trade>)
    requires TotalVolume(trades) > 0
    ensures trades != [] && MinPrice(trades) <= ComputeVwap(trades).value <= MaxPrice(trades)
  {
    VwapWithinPrices(trades, MinPrice(trades), MaxPrice(trades));
  }

  /** The VWAP of a single trade is its price. */
  lemma VwapOfOneTrade(t: Trade)
    requires t.volume > 0
    ensures ComputeVwap([t]) == Some(t.price)
  {
    assert [t][1..] == [];
    assert Notional([t]) == Weighted(t);
    assert TotalVolume([t]) == t.volume;
    CancelVolume(t.price, t.volume as real);
    assert Notional([t]) / TotalVolume([t]) as real == t.price;
  }

  lemma CancelVolume(p: real, v: real)
    requires v != 0.0
    ensures (p * v) / v == p
  {
  }

  /** The VWAP does not depend on the order of the trades. */
  lemma {:induction false} NotionalPermutation(a: seq<Trade>, b: seq<Trade>)
    requires multiset(a) == multiset(b)
    ensures Notional(a) == Notional(b) && TotalVolume(a) == TotalVolume(b)
    decreases |a|
  {
    if a == [] {
      assert |b| == |multiset(b)| == 0;
    } else {
      var t := a[0];
      assert t in multiset(b);
      var j :| 0 <= j < |b| && b[j] == t;
      var rest := b[..j] + b[j + 1..];
      assert multiset(a[1..]) == multiset(rest) by {
        assert a == [t] + a[1..];
        assert b == b[..j] + [t] + b[j + 1..];
        assert multiset(a[1..]) == multiset(a) - multiset{t};
        assert multiset(rest) == multiset(b) - multiset{t};
      }
      NotionalPermutation(a[1..], rest);
      NotionalRemove(b, j);
    }
  }

  lemma NotionalRemove(b: seq<Trade>, j: nat)
    requires j < |b|
    ensures Notional(b) == Weighted(b[j]) + Notional(b[..j] + b[j + 1..])
    ensures TotalVolume(b) == b[j].volume + TotalVolume(b[..j] + b[j + 1..])
  {
    if j > 0 {
      NotionalRemove(b[1..], j - 1);
      assert b[1..][..j - 1] + b[1..][j..] == (b[..j] + b[j + 1..])[1..];
    } else {
      assert b[..j] + b[j + 1..] == b[1..];
    }
  }

  lemma VwapPermutation(a: seq<Trade>, b: seq<Trade>)
    requires multiset(a) == multiset(b)
    ensures ComputeVwap(a) == ComputeVwap(b)
  {
    NotionalPermutation(a, b);
  }
}
