/**
 * Buy, sell and net volume (set50.test7.py:207-209, and the `summary` helper
 * at 65-68): the volumes of the trades typed "Aggressive Buy" and of those
 * typed "Aggressive Sell" are summed, and net flow is buy minus sell.
 */
module Volumes {
  import opened Trades

  /** The `(buy, sell, buy - sell)` triple. */
  datatype Flow = Flow(buy: nat, sell: nat, net: int)

  /** Sum of all volumes, whatever the type: the denominator of the VWAP. */
  function TotalVolume(trades: seq<Trade>): nat {
    if trades == [] then 0 else trades[0].volume + TotalVolume(trades[1..])
  }

  /** The total volume is zero exactly when every trade has zero volume. */
  lemma {:induction false} NoVolumeIffAllZero(trades: seq<Trade>)
    ensures TotalVolume(trades) == 0 <==> forall i | 0 <= i < |trades| :: trades[i].volume == 0
  {
    if trades != [] {
      NoVolumeIffAllZero(trades[1..]);
      assert forall i | 1 <= i < |trades| :: trades[i] == trades[1..][i - 1];
    }
  }

  /** What one trade adds to the `kind` total: its volume when its type matches, else nothing. */
  function Share(t: Trade, kind: string): nat {
    if t.kind == kind then t.volume else 0
  }

  /** `trades.loc[trades['type'] == kind, 'volume'].sum()`. */
  function VolumeOf(trades: seq<Trade>, kind: string): (v: nat)
    ensures v <= TotalVolume(trades)
  {
    if trades == [] then 0 else Share(trades[0], kind) + VolumeOf(trades[1..], kind)
  }

  /** Volume of the trades whose type is neither of the two recognised strings. */
  function UnclassifiedVolume(trades: seq<Trade>): nat {
    if trades == [] then 0
    else
      var own := if trades[0].kind != BUY_KIND && trades[0].kind != SELL_KIND then trades[0].volume else 0;
      own + UnclassifiedVolume(trades[1..])
  }

  /** Buy, sell and net volume of a list of trades. */
  function Totals(trades: seq<Trade>): (f: Flow)
    ensures f.net == f.buy - f.sell
    ensures f.buy + f.sell <= TotalVolume(trades)
  {
    var buy := VolumeOf(trades, BUY_KIND);
    var sell := VolumeOf(trades, SELL_KIND);
    KindPartition(trades);
    Flow(buy, sell, buy - sell)
  }

  /** No trades, no flow. */
  lemma TotalsOfNothing()
    ensures Totals([]) == Flow(0, 0, 0)
  {
  }

  /**
   * Every trade's volume lands in exactly one of buy, sell or unclassified,
   * so the three add up to the total volume.
   */
  lemma {:induction false} KindPartition(trades: seq<Trade>)
    ensures VolumeOf(trades, BUY_KIND) + VolumeOf(trades, SELL_KIND) + UnclassifiedVolume(trades) == TotalVolume(trades)
  {
    if trades != [] {
      KindPartition(trades[1..]);
    }
  }

  /** When every trade is a buy or a sell, buy plus sell is the total volume. */
  lemma TwoSidedTotals(trades: seq<Trade>)
    requires forall i | 0 <= i < |trades| :: trades[i].kind == BUY_KIND || trades[i].kind == SELL_KIND
    ensures Totals(trades).buy + Totals(trades).sell == TotalVolume(trades)
  {
    NoUnclassified(trades);
    KindPartition(trades);
  }

  lemma {:induction false} NoUnclassified(trades: seq<Trade>)
    requires forall i | 0 <= i < |trades| :: trades[i].kind == BUY_KIND || trades[i].kind == SELL_KIND
    ensures UnclassifiedVolume(trades) == 0
  {
    if trades != [] {
      NoUnclassified(trades[1..]);
    }
  }

  lemma {:induction false} VolumeOfAppend(a: seq<Trade>, b: seq<Trade>, kind: string)
    ensures VolumeOf(a + b, kind) == VolumeOf(a, kind) + VolumeOf(b, kind)
  {
    if a == [] {
      assert a + b == b;
    } else {
      assert (a + b)[1..] == a[1..] + b;
      VolumeOfAppend(a[1..], b, kind);
    }
  }

  /**
   * The sums do not depend on the order of the trades: the analytics may not
   * assume the list is sorted by time, and reordering it changes nothing.
   */
  lemma {:induction false} VolumeOfPermutation(a: seq<Trade>, b: seq<Trade>, kind: string)
    requires multiset(a) == multiset(b)
    ensures VolumeOf(a, kind) == VolumeOf(b, kind)
    decreases |a|
  {
    if a == [] {
      assert |b| == |multiset(b)| == 0;
    } else {
      var t := a[0];
      assert t in multiset(b);
      var j :| 0 <= j < |b| && b[j] == t;
      var rest := b[..j] + b[j + 1..];
      assert multiset(a[1..]) == multiset(rest) by {
        assert a == [t] + a[1..];
        assert b == b[..j] + [t] + b[j + 1..];
        assert multiset(a) == multiset{t} + multiset(a[1..]);
        assert multiset(b) == multiset(b[..j]) + multiset{t} + multiset(b[j + 1..]);
        assert multiset(rest) == multiset(b[..j]) + multiset(b[j + 1..]);
        assert multiset(a[1..]) == multiset(a) - multiset{t};
        assert multiset(rest) == multiset(b) - multiset{t};
      }
      VolumeOfPermutation(a[1..], rest, kind);
      VolumeOfRemove(b, j, kind);
    }
  }

  /** Taking one trade out of a list takes exactly its share out of the sum. */
  lemma VolumeOfRemove(b: seq<Trade>, j: nat, kind: string)
    requires j < |b|
    ensures VolumeOf(b, kind) == Share(b[j], kind) + VolumeOf(b[..j] + b[j + 1..], kind)
  {
    assert b == b[..j] + ([b[j]] + b[j + 1..]);
    VolumeOfAppend(b[..j], [b[j]] + b[j + 1..], kind);
    VolumeOfAppend(b[..j], b[j + 1..], kind);
    assert ([b[j]] + b[j + 1..])[1..] == b[j + 1..];
  }

  /** Reordering the trades leaves buy, sell and net unchanged. */
  lemma TotalsPermutation(a: seq<Trade>, b: seq<Trade>)
    requires multiset(a) == multiset(b)
    ensures Totals(a) == Totals(b)
  {
    VolumeOfPermutation(a, b, BUY_KIND);
    VolumeOfPermutation(a, b, SELL_KIND);
  }
}
