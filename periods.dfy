/**
 * `summarize_periods` (set50.test7.py:64-80): the trades are split by the
 * hour of their parsed time into four buckets and each bucket gets its own
 * buy/sell/net triple. The boundaries are the code's: mid ends before hour
 * 15 and late is hour 15 alone, although the page labels the buckets
 * "10:00-15:30" and "15:30-16:00" (lines 235-236).
 */
module Periods {
  import opened Trades
  import opened Volumes

  datatype Period = Early | Mid | Late | After

  /** The hour masks `early`, `mid`, `late` and `after`. */
  predicate InPeriod(p: Period, hour: nat) {
    match p
    case Early => hour < 10
    case Mid => 10 <= hour && hour < 15
    case Late => 15 <= hour && hour < 16
    case After => hour >= 16
  }

  /** The one bucket an hour belongs to: the masks are disjoint and cover every hour. */
  function PeriodOf(hour: nat): (p: Period)
    ensures InPeriod(p, hour)
    ensures forall q: Period :: InPeriod(q, hour) ==> q == p
  {
    if hour < 10 then Early else if hour < 15 then Mid else if hour < 16 then Late else After
  }

  /** A record is selected by the mask of `p` when its parsed hour falls in `p`. */
  predicate InBucket(t: Trade, p: Period) {
    t.dt.Some? && InPeriod(p, t.dt.value.hour)
  }

  /** `trades_df[mask]`: the records of bucket `p`, in list order. */
  function Bucket(trades: seq<Trade>, p: Period): (r: seq<Trade>)
    ensures |r| <= |trades|
  {
    if trades == [] then []
    else
      var rest := Bucket(trades[1..], p);
      if InBucket(trades[0], p) then [trades[0]] + rest else rest
  }

  /** A bucket holds exactly the records of the list that its mask selects. */
  lemma {:induction false} BucketMembership(trades: seq<Trade>, p: Period, t: Trade)
    ensures t in Bucket(trades, p) <==> t in trades && InBucket(t, p)
  {
    if trades != [] {
      BucketMembership(trades[1..], p, t);
      assert t in trades <==> t == trades[0] || t in trades[1..];
    }
  }

  /** The `(buy, sell, buy - sell)` of one bucket: `summary(mask)`. */
  function Summary(trades: seq<Trade>, p: Period): (f: Flow)
    ensures f.net == f.buy - f.sell
    ensures f.buy == VolumeOf(Bucket(trades, p), BUY_KIND) && f.sell == VolumeOf(Bucket(trades, p), SELL_KIND)
  {
    Totals(Bucket(trades, p))
  }

  /** The dictionary `{'early': …, 'mid': …, 'late': …, 'after': …}`. */
  datatype PeriodSummaries = PeriodSummaries(early: Flow, mid: Flow, late: Flow, after: Flow)

  function SummarizePeriods(trades: seq<Trade>): (s: PeriodSummaries)
    requires Stamped(trades)
    ensures s.early.net == s.early.buy - s.early.sell && s.mid.net == s.mid.buy - s.mid.sell
    ensures s.late.net == s.late.buy - s.late.sell && s.after.net == s.after.buy - s.after.sell
  {
    PeriodSummaries(Summary(trades, Early), Summary(trades, Mid), Summary(trades, Late), Summary(trades, After))
  }

  /** A parsed trade falls in exactly one bucket, the one of its hour. */
  lemma ExactlyOneBucket(t: Trade, p: Period)
    requires t.dt.Some? && Clock.Valid(t.dt.value)
    ensures InBucket(t, p) <==> p == PeriodOf(Hour(t))
  {
  }

  /** The four buckets together hold every trade of the list exactly once. */
  lemma {:induction false} BucketsPartition(trades: seq<Trade>)
    requires Stamped(trades)
    ensures multiset(Bucket(trades, Early)) + multiset(Bucket(trades, Mid))
          + multiset(Bucket(trades, Late)) + multiset(Bucket(trades, After)) == multiset(trades)
  {
    if trades != [] {
      BucketsPartition(trades[1..]);
      assert trades == [trades[0]] + trades[1..];
      var t := trades[0];
      assert InBucket(t, PeriodOf(Hour(t)));
    }
  }

  /**
   * The buckets' buy totals add up to the page's buy volume, their sell
   * totals to its sell volume, and their nets to its net flow.
   */
  lemma PeriodTotalsAddUp(trades: seq<Trade>)
    requires Stamped(trades)
    ensures var s := SummarizePeriods(trades); var f := Totals(trades);
      && s.early.buy + s.mid.buy + s.late.buy + s.after.buy == f.buy
      && s.early.sell + s.mid.sell + s.late.sell + s.after.sell == f.sell
      && s.early.net + s.mid.net + s.late.net + s.after.net == f.net
  {
    var all := Bucket(trades, Early) + Bucket(trades, Mid) + Bucket(trades, Late) + Bucket(trades, After);
    BucketsPartition(trades);
    assert multiset(all) == multiset(trades);
    ConcatenatedVolumes(trades, BUY_KIND);
    ConcatenatedVolumes(trades, SELL_KIND);
    VolumeOfPermutation(all, trades, BUY_KIND);
    VolumeOfPermutation(all, trades, SELL_KIND);
  }

  lemma ConcatenatedVolumes(trades: seq<Trade>, kind: string)
    ensures var e, m, l, a := Bucket(trades, Early), Bucket(trades, Mid), Bucket(trades, Late), Bucket(trades, After);
      VolumeOf(e + m + l + a, kind) == VolumeOf(e, kind) + VolumeOf(m, kind) + VolumeOf(l, kind) + VolumeOf(a, kind)
  {
    var e, m, l, a := Bucket(trades, Early), Bucket(trades, Mid), Bucket(trades, Late), Bucket(trades, After);
    VolumeOfAppend(e + m + l, a, kind);
    VolumeOfAppend(e + m, l, kind);
    VolumeOfAppend(e, m, kind);
  }

  /** With no trades every bucket is (0, 0, 0), which is what the page shows when it skips the call. */
  lemma SummariesOfNothing()
    ensures SummarizePeriods([]) == PeriodSummaries(Flow(0, 0, 0), Flow(0, 0, 0), Flow(0, 0, 0), Flow(0, 0, 0))
  {
  }

  /** Hour 15 is `late`, not `mid`: a 15:10 trade is counted as late despite the "15:30" label. */
  lemma FifteenTenIsLate(t: Trade)
    requires t.dt == Wrappers.Some(Clock.ClockTime(15, 10))
    ensures InBucket(t, Late) && !InBucket(t, Mid)
  {
  }
}
