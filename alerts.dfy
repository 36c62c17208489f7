/**
 * The alert chain (set50.test7.py:211-220): five outcomes, tried in order,
 * the first whose condition holds wins.
 */
module Alerts {
  import opened Volumes

  datatype AlertState = PanicAlert | NetFlowWarning | WeakeningSell | BullishSignal | MarketStable

  /** The sidebar inputs the chain reads (lines 99-105). */
  datatype Settings = Settings(alertPrice: real, volumeRatio: real, netFlowThreshold: int, swingHigh: real, swingLow: real)

  /** The sidebar's initial values. */
  const DEFAULT_SETTINGS: Settings := Settings(820.0, 2.0, -10000, 830.0, 800.0)

  /** Sell volume below which selling counts as weakening. */
  const WEAK_SELL_VOLUME: nat := 400
  /** How far up the swing the price must be for the weakening-sell rule. */
  const WEAK_REBOUND: real := 0.2
  /** How far up the swing the price must be for the bullish rule. */
  const BULLISH_REBOUND: real := 0.25

  /** The price `fraction` of the way from the swing low to the swing high. */
  function Retracement(s: Settings, fraction: real): real {
    s.swingLow + (s.swingHigh - s.swingLow) * fraction
  }

  predicate PanicRule(price: real, f: Flow, s: Settings) {
    price < s.alertPrice && f.sell as real > f.buy as real * s.volumeRatio
  }

  predicate NetFlowRule(f: Flow, s: Settings) {
    f.net < s.netFlowThreshold
  }

  predicate WeakeningRule(price: real, f: Flow, s: Settings) {
    f.sell < WEAK_SELL_VOLUME && price > Retracement(s, WEAK_REBOUND)
  }

  predicate BullishRule(price: real, f: Flow, s: Settings) {
    f.net > 0 && price > Retracement(s, BULLISH_REBOUND)
  }

  /** The conditions of the decision table, in priority order. */
  function Rules(price: real, f: Flow, s: Settings): seq<bool> {
    [PanicRule(price, f, s), NetFlowRule(f, s), WeakeningRule(price, f, s), BullishRule(price, f, s)]
  }

  /** The outcome of each row of the table; the last row is taken when no condition holds. */
  const OUTCOMES: seq<AlertState> := [PanicAlert, NetFlowWarning, WeakeningSell, BullishSignal, MarketStable]

  /** The index of the first condition that holds, or the number of conditions when none does. */
  function FirstMatch(rules: seq<bool>): (k: nat)
    ensures k <= |rules|
    ensures k < |rules| ==> rules[k]
    ensures forall j | 0 <= j < k :: !rules[j]
  {
    if rules == [] then 0 else if rules[0] then 0 else 1 + FirstMatch(rules[1..])
  }

  /** The `if`/`elif` chain: the outcome of the first row of the table whose condition holds. */
  function EvaluateAlert(price: real, f: Flow, s: Settings): (a: AlertState)
    ensures a == OUTCOMES[FirstMatch(Rules(price, f, s))]
  {
    var rules := Rules(price, f, s);
    assert rules[2] == WeakeningRule(price, f, s) && rules[3] == BullishRule(price, f, s);
    if PanicRule(price, f, s) then PanicAlert
    else if NetFlowRule(f, s) then NetFlowWarning
    else if WeakeningRule(price, f, s) then WeakeningSell
    else if BullishRule(price, f, s) then BullishSignal
    else MarketStable
  }

  /** Panic is raised whenever its condition holds, whatever the later rules say. */
  lemma PanicTakesPriority(price: real, f: Flow, s: Settings)
    requires PanicRule(price, f, s)
    ensures EvaluateAlert(price, f, s) == PanicAlert
  {
  }

  /** Each outcome is chosen exactly when its own condition holds and every earlier one fails. */
  lemma AlertChosenIff(price: real, f: Flow, s: Settings)
    ensures var a := EvaluateAlert(price, f, s);
      && (a == PanicAlert <==> PanicRule(price, f, s))
      && (a == NetFlowWarning <==> !PanicRule(price, f, s) && NetFlowRule(f, s))
      && (a == WeakeningSell <==> !PanicRule(price, f, s) && !NetFlowRule(f, s) && WeakeningRule(price, f, s))
      && (a == BullishSignal <==> !PanicRule(price, f, s) && !NetFlowRule(f, s) && !WeakeningRule(price, f, s)
                                  && BullishRule(price, f, s))
      && (a == MarketStable <==> !PanicRule(price, f, s) && !NetFlowRule(f, s) && !WeakeningRule(price, f, s)
                                 && !BullishRule(price, f, s))
  {
    var rules := Rules(price, f, s);
    var k := FirstMatch(rules);
    assert EvaluateAlert(price, f, s) == OUTCOMES[k];
    assert k == 0 <==> rules[0];
  }

  /** Panic with the default thresholds: price 814 below 820 and 500 sold against 200 bought at ratio 2. */
  lemma PanicExample()
    ensures EvaluateAlert(814.0, Flow(200, 500, -300), DEFAULT_SETTINGS) == PanicAlert
  {
  }
}
