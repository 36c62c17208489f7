/**
 * The analytics worked out on the mock table's data (set50.test7.py:29-34)
 * and the sidebar defaults (lines 99-105).
 */
module Fixtures {
  import opened Wrappers
  import opened Trades
  import opened Volumes
  import opened Periods
  import opened Vwap
  import opened Liquidity
  import opened Alerts
  import opened Snapshots
  import opened Dashboard

  /** S50Z25 bought 200 + 400 and sold 300 + 500. */
  lemma S50Z25Totals()
    ensures Totals(S50Z25_TRADES) == Flow(600, 800, -200)
  {
    var s := S50Z25_TRADES;
    Tails(s);
    assert VolumeOf(s[3..], BUY_KIND) == 400 && VolumeOf(s[3..], SELL_KIND) == 0;
    assert VolumeOf(s[2..], BUY_KIND) == 400 && VolumeOf(s[2..], SELL_KIND) == 500;
    assert VolumeOf(s[1..], BUY_KIND) == 600 && VolumeOf(s[1..], SELL_KIND) == 500;
  }

  /** The tails of a four-element list, spelled out so that the recursive sums unfold. */
  lemma Tails(s: seq<Trade>)
    requires |s| == 4
    ensures s[1..] == [s[1], s[2], s[3]] && s[2..] == [s[2], s[3]] && s[3..] == [s[3]] && s[4..] == []
    ensures s[1..][1..] == s[2..] && s[2..][1..] == s[3..] && s[3..][1..] == s[4..]
  {
  }

  /** One tick per bucket: 09:45 early, 11:15 mid, 15:45 late, 16:05 after. */
  lemma S50Z25Periods()
    ensures AllParse(S50Z25_TRADES)
    ensures SummarizePeriods(AttachAll(S50Z25_TRADES))
         == PeriodSummaries(Flow(0, 300, -300), Flow(200, 0, 200), Flow(0, 500, -500), Flow(400, 0, 400))
  {
    var s := AttachAll(S50Z25_TRADES);
    S50Z25Buckets();
    OneTick(s[0]);
    OneTick(s[1]);
    OneTick(s[2]);
    OneTick(s[3]);
  }

  lemma S50Z25Buckets()
    ensures AllParse(S50Z25_TRADES)
    ensures var s := AttachAll(S50Z25_TRADES);
      && Bucket(s, Early) == [s[0]] && Bucket(s, Mid) == [s[1]]
      && Bucket(s, Late) == [s[2]] && Bucket(s, After) == [s[3]]
  {
    var s := AttachAll(S50Z25_TRADES);
    assert Hour(s[0]) == 9 && Hour(s[1]) == 11 && Hour(s[2]) == 15 && Hour(s[3]) == 16;
    BucketOfFour(s, Early);
    BucketOfFour(s, Mid);
    BucketOfFour(s, Late);
    BucketOfFour(s, After);
  }

  /** `[t]` when `t` falls in `p`, else nothing. */
  function Keep(t: Trade, p: Period): seq<Trade> {
    if InBucket(t, p) then [t] else []
  }

  lemma BucketOfFour(s: seq<Trade>, p: Period)
    requires |s| == 4
    ensures Bucket(s, p) == Keep(s[0], p) + Keep(s[1], p) + Keep(s[2], p) + Keep(s[3], p)
  {
    BucketStep(s, p);
    BucketStep(s[1..], p);
    BucketStep(s[2..], p);
    BucketStep(s[3..], p);
    assert s[1..][0] == s[1] && s[2..][0] == s[2] && s[3..][0] == s[3];
    assert s[1..][1..] == s[2..] && s[2..][1..] == s[3..] && s[3..][1..] == [];
  }

  lemma BucketStep(s: seq<Trade>, p: Period)
    requires s != []
    ensures Bucket(s, p) == Keep(s[0], p) + Bucket(s[1..], p)
  {
  }

  /** The flow of a single tick. */
  lemma OneTick(t: Trade)
    ensures Totals([t]) == Flow(Share(t, BUY_KIND), Share(t, SELL_KIND), Share(t, BUY_KIND) - Share(t, SELL_KIND))
  {
    assert [t][1..] == [];
  }

  /** With the default thresholds and S50Z25's table price of 814, none of the four rules fires. */
  lemma S50Z25AlertIsStable()
    ensures var snap := MockSnapshot("S50Z25").value;
      EvaluateAlert(snap.price, Totals(snap.trades), DEFAULT_SETTINGS) == MarketStable
  {
    S50Z25Totals();
  }

  /** The page shows "Market Stable" for S50Z25 under the default settings. */
  lemma S50Z25PageIsStable()
    ensures AllParse(MockSnapshot("S50Z25").value.trades)
    ensures PageView(MockSnapshot("S50Z25").value, DEFAULT_SETTINGS).alert == MarketStable
  {
    S50Z25AlertIsStable();
  }

  /** S50Z25's VWAP: 1,140,100 of notional over 1,400 contracts. */
  lemma S50Z25Vwap()
    ensures ComputeVwap(S50Z25_TRADES) == Some(11401.0 / 14.0)
  {
    var s := S50Z25_TRADES;
    Tails(s);
    assert Notional(s[3..]) == 325920.0 && TotalVolume(s[3..]) == 400;
    assert Notional(s[2..]) == 732920.0 && TotalVolume(s[2..]) == 900;
    assert Notional(s[1..]) == 895840.0 && TotalVolume(s[1..]) == 1100;
    assert Notional(s) == 1140100.0 && TotalVolume(s) == 1400;
  }

  /** All three books of the table lean to the offer side by more than the band, on the page too. */
  lemma FixtureSentiments(settings: Settings)
    ensures forall c | c in CONTRACTS ::
      SentimentOf(MockSnapshot(c).value.bid, MockSnapshot(c).value.offer) == BearishPressure
    ensures forall c | c in CONTRACTS ::
      AllParse(MockSnapshot(c).value.trades) && PageView(MockSnapshot(c).value, settings).sentiment == BearishPressure
  {
  }
}
