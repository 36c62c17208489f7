/**
 * The page itself (set50.test7.py:113-258 without the rendering): fetch the
 * snapshot, parse its trades, then compute every figure the panels show.
 * Only the computed values are modelled; widgets, charts and formatting are not.
 */
module Dashboard {
  import opened Wrappers
  import opened Trades
  import opened Volumes
  import opened Periods
  import opened Vwap
  import opened Liquidity
  import opened Alerts
  import opened Levels
  import opened Snapshots

  /** Everything the page derives from one snapshot and the sidebar settings. */
  datatype View = View(
    price: real,
    change: real,
    bid: nat,
    offer: nat,
    imbalance: int,
    ratio: real,
    sentiment: Sentiment,
    vwap: Option<real>,                  // None: the page prints "N/A"
    flow: Flow,
    alert: AlertState,
    periods: Option<PeriodSummaries>,    // None: the page shows four zero panels
    levels: seq<Level>)

  datatype PageError =
    | UnknownContract(symbol: string)    // `.copy()` on the missing table entry
    | BadTimestamp(index: nat)           // strptime rejected this tick's timestamp
    | MissingColumn(column: string)      // a column looked up on a frame built from no records

  /** The four buckets add up to the page's buy, sell and net figures. */
  predicate PeriodsAddUp(p: PeriodSummaries, f: Flow) {
    && p.early.buy + p.mid.buy + p.late.buy + p.after.buy == f.buy
    && p.early.sell + p.mid.sell + p.late.sell + p.after.sell == f.sell
    && p.early.net + p.mid.net + p.late.net + p.after.net == f.net
  }

  /**
   * Lines 207-209 as written: the `type` column of a frame built from an
   * empty list does not exist, so the lookup raises before anything is summed.
   */
  function FlowAsWritten(frame: seq<Trade>): (r: Result<Flow, PageError>)
    ensures r.Failure? <==> frame == []
    ensures r.Success? ==> r.value == Totals(frame)
  {
    if frame == [] then Failure(MissingColumn("type")) else Success(Totals(frame))
  }

  /** The as-written totals fail on a snapshot without trades, where the intended totals are zeros. */
  lemma EmptyFrameFlow()
    ensures FlowAsWritten([]) == Failure(MissingColumn("type"))
    ensures Totals([]) == Flow(0, 0, 0)
  {
  }

  /**
   * The figures the page shows for a snapshot whose ticks all parse, computed
   * from the stamped ticks (lines 120-258). `Render` is proved to produce
   * exactly this view.
   */
  function PageView(snap: Snapshot, settings: Settings): (v: View)
    requires AllParse(snap.trades)
    ensures v.flow == Totals(snap.trades)
    ensures v.vwap.Some? <==> TotalVolume(snap.trades) > 0
    ensures v.vwap.Some? ==> MinPrice(snap.trades) <= v.vwap.value <= MaxPrice(snap.trades)
    ensures v.periods.None? <==> snap.trades == []
    ensures v.periods.Some? ==> PeriodsAddUp(v.periods.value, v.flow)
  {
    var trades := AttachAll(snap.trades);
    AttachedVolumes(snap.trades);
    AttachedTotals(snap.trades);
    var v := View(snap.price, snap.change, snap.bid, snap.offer,
                  Imbalance(snap.bid, snap.offer), BookRatio(snap.bid, snap.offer), SentimentOf(snap.bid, snap.offer),
                  ComputeVwap(trades), Totals(trades), EvaluateAlert(snap.price, Totals(trades), settings),
                  if trades == [] then None else Some(SummarizePeriods(trades)),
                  FibonacciLevels(settings.swingHigh, settings.swingLow));
    if trades == [] then v
    else
      PeriodTotalsAddUp(trades);
      if TotalVolume(trades) == 0 then v
      else
        VwapBetweenMinAndMax(trades);
        v
  }

  /**
   * Everything after the fetch: parse the ticks into the frame, then compute
   * the liquidity panel, the VWAP, the totals and the alert, the period
   * panels and the Fibonacci levels. Fails only when a timestamp does not parse.
   */
  method Render(snap: Snapshot, settings: Settings) returns (r: Result<View, PageError>)
    ensures r.Failure? <==> !AllParse(snap.trades)
    ensures r.Failure? ==> r.error == BadTimestamp(FirstBadTimestamp(snap.trades).value)
    ensures r.Success? ==>
      var trades := AttachAll(snap.trades);
      var v := r.value;
      && v.price == snap.price && v.change == snap.change && v.bid == snap.bid && v.offer == snap.offer
      && v.imbalance == Imbalance(snap.bid, snap.offer)
      && v.ratio == BookRatio(snap.bid, snap.offer)
      && v.sentiment == SentimentOf(snap.bid, snap.offer)
      && v.flow == Totals(trades)
      && v.alert == EvaluateAlert(snap.price, v.flow, settings)
      && v.vwap == ComputeVwap(trades)
      && (v.vwap.Some? <==> TotalVolume(snap.trades) > 0)
      && (v.vwap.Some? ==> MinPrice(snap.trades) <= v.vwap.value <= MaxPrice(snap.trades))
      && (v.periods.None? <==> snap.trades == [])
      && (v.periods.Some? ==> v.periods.value == SummarizePeriods(trades) && PeriodsAddUp(v.periods.value, v.flow))
      && v.levels == FibonacciLevels(settings.swingHigh, settings.swingLow)
      && v == PageView(snap, settings)
  {
    var a := new Trade[|snap.trades|](i requires 0 <= i < |snap.trades| => snap.trades[i]);
    assert a[..] == snap.trades;
    var err := ParseTrades(a);
    if err.Some? {
      return Failure(BadTimestamp(err.value));
    }
    var trades := a[..];
    assert trades == AttachAll(snap.trades);

    var imbalance := Imbalance(snap.bid, snap.offer);
    var ratio := BookRatio(snap.bid, snap.offer);
    var sentiment := SentimentOf(snap.bid, snap.offer);

    var vwap: Option<real> := None;
    if trades != [] {
      vwap := ComputeVwap(trades);
    }

    var flow := Totals(trades);
    var alert := EvaluateAlert(snap.price, flow, settings);

    var periods: Option<PeriodSummaries> := None;
    if trades != [] {
      periods := Some(SummarizePeriods(trades));
    }

    var levels := FibonacciLevels(settings.swingHigh, settings.swingLow);
    r := Success(View(snap.price, snap.change, snap.bid, snap.offer, imbalance, ratio, sentiment,
                      vwap, flow, alert, periods, levels));
    assert r.value == PageView(snap, settings);
  }

  /** Attaching times changes neither the volumes nor the prices the figures are computed from. */
  lemma {:induction false} AttachedVolumes(s: seq<Trade>)
    requires AllParse(s)
    ensures TotalVolume(AttachAll(s)) == TotalVolume(s)
    ensures s != [] ==> MinPrice(AttachAll(s)) == MinPrice(s) && MaxPrice(AttachAll(s)) == MaxPrice(s)
  {
    if s != [] {
      assert AllParse(s[1..]);
      assert AttachAll(s)[1..] == AttachAll(s[1..]);
      AttachedVolumes(s[1..]);
    }
  }

  /**
   * One refresh: look the contract up in the mock table and render it. The
   * fixtures all parse, so the page succeeds exactly for the known contracts.
   */
  method Refresh(contract: string, settings: Settings) returns (r: Result<View, PageError>)
    ensures r.Success? <==> contract in CONTRACTS
    ensures r.Failure? ==> r.error == UnknownContract(contract)
    ensures r.Success? ==>
      var snap := MockSnapshot(contract).value;
      && r.value.price == snap.price
      && r.value.flow == Totals(snap.trades)
      && r.value.alert == EvaluateAlert(snap.price, Totals(snap.trades), settings)
      && r.value.periods.Some?
      && r.value == PageView(snap, settings)
  {
    var found := MockSnapshot(contract);
    if found.Failure? {
      return Failure(UnknownContract(contract));
    }
    r := Render(found.value, settings);
    AttachedTotals(found.value.trades);
  }

  /** Attaching times leaves buy, sell and net unchanged. */
  lemma {:induction false} AttachedTotals(s: seq<Trade>)
    requires AllParse(s)
    ensures Totals(AttachAll(s)) == Totals(s)
  {
    AttachedShares(s, BUY_KIND);
    AttachedShares(s, SELL_KIND);
  }

  lemma {:induction false} AttachedShares(s: seq<Trade>, kind: string)
    requires AllParse(s)
    ensures VolumeOf(AttachAll(s), kind) == VolumeOf(s, kind)
  {
    if s != [] {
      assert AllParse(s[1..]);
      assert AttachAll(s)[1..] == AttachAll(s[1..]);
      AttachedShares(s[1..], kind);
    }
  }
}
