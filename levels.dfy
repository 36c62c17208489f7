/**
 * The Fibonacci retracement levels (set50.test7.py:251-258): six named
 * prices between the swing high and the swing low, in the order the
 * dictionary lists them.
 */
module Levels {

  datatype Level = Level(name: string, price: real)

  const LABELS: seq<string> := ["0.0%", "23.6%", "38.2%", "50.0%", "61.8%", "100.0%"]

  /** The retracement fraction each label stands for. */
  const FRACTIONS: seq<real> := [0.0, 0.236, 0.382, 0.5, 0.618, 1.0]

  /**
   * The `levels` dictionary. The outer levels are the swing prices
   * themselves; each one is the high less that fraction of the swing.
   */
  function FibonacciLevels(high: real, low: real): (r: seq<Level>)
    ensures |r| == |LABELS| == |FRACTIONS|
    ensures forall i | 0 <= i < |r| :: r[i].name == LABELS[i] && r[i].price == high - (high - low) * FRACTIONS[i]
  {
    [ Level("0.0%", high),
      Level("23.6%", high - (high - low) * 0.236),
      Level("38.2%", high - (high - low) * 0.382),
      Level("50.0%", high - (high - low) * 0.5),
      Level("61.8%", high - (high - low) * 0.618),
      Level("100.0%", low) ]
  }

  /** The first level is the swing high and the last the swing low, exactly. */
  lemma LevelsEndAtSwings(high: real, low: real)
    ensures FibonacciLevels(high, low)[0].price == high && FibonacciLevels(high, low)[5].price == low
  {
  }

  /** With the high at or above the low, the levels never rise along the list and stay within the swing. */
  lemma LevelsNonIncreasing(high: real, low: real)
    requires high >= low
    ensures var r := FibonacciLevels(high, low);
      forall i, j | 0 <= i <= j < |r| :: low <= r[j].price <= r[i].price <= high
  {
    var r := FibonacciLevels(high, low);
    forall i, j | 0 <= i <= j < |r|
      ensures low <= r[j].price <= r[i].price <= high
    {
      assert 0.0 <= FRACTIONS[i] <= FRACTIONS[j] <= 1.0;
    }
  }

  /** With the high strictly above the low, the six levels are six distinct, falling prices. */
  lemma LevelsStrictlyDecreasing(high: real, low: real)
    requires high > low
    ensures var r := FibonacciLevels(high, low);
      forall i, j | 0 <= i < j < |r| :: r[j].price < r[i].price
  {
    var r := FibonacciLevels(high, low);
    forall i, j | 0 <= i < j < |r|
      ensures r[j].price < r[i].price
    {
      assert FRACTIONS[i] < FRACTIONS[j];
    }
  }

  /** A swing of no height puts every level on the same price. */
  lemma FlatSwing(p: real)
    ensures forall l | l in FibonacciLevels(p, p) :: l.price == p
  {
  }

  /** The levels for the sidebar's default swing, 830 down to 800. */
  lemma DefaultSwingLevels()
    ensures var r := FibonacciLevels(830.0, 800.0);
      [r[0].price, r[1].price, r[2].price, r[3].price, r[4].price, r[5].price]
        == [830.0, 822.92, 818.54, 815.0, 811.46, 800.0]
  {
  }
}
