/**
 * The "Liquidity & Imbalance" panel (set50.test7.py:156-158): imbalance is
 * offer volume minus bid volume, the displayed ratio is offer / (bid + 1),
 * and the sentiment label depends on the imbalance against a band of 1000.
 */
module Liquidity {

  /** Half-width of the neutral band around a balanced book. */
  const IMBALANCE_BAND: int := 1000

  datatype Sentiment = BearishPressure | Bullish | Neutral

  /** The text the page shows for each sentiment. */
  function Label(m: Sentiment): (s: string)
    ensures |s| > 0
  {
    match m
    case BearishPressure => "Bearish Pressure"
    case Bullish => "Bullish"
    case Neutral => "Neutral"
  }

  /** Different sentiments are shown with different texts, so the label tells the sentiment. */
  lemma LabelsDistinct(m: Sentiment, m': Sentiment)
    ensures m != m' ==> Label(m) != Label(m')
  {
  }

  function Imbalance(bid: nat, offer: nat): (d: int)
    ensures d > 0 <==> offer > bid
  {
    offer - bid
  }

  /** `offer / (bid + 1)`: the `+ 1` keeps the denominator positive for any book. */
  function BookRatio(bid: nat, offer: nat): (r: real)
    ensures 0.0 <= r && r * (bid + 1) as real == offer as real
    ensures r <= offer as real
  {
    offer as real / (bid + 1) as real
  }

  function SentimentOf(bid: nat, offer: nat): (m: Sentiment)
    ensures m == BearishPressure <==> offer > bid + IMBALANCE_BAND
    ensures m == Bullish <==> bid > offer + IMBALANCE_BAND
  {
    var imbalance := Imbalance(bid, offer);
    if imbalance > IMBALANCE_BAND then BearishPressure
    else if imbalance < -IMBALANCE_BAND then Bullish
    else Neutral
  }

  /** Bullish < Neutral < Bearish Pressure, by how much the book leans to the offer side. */
  function Rank(m: Sentiment): nat {
    match m
    case Bullish => 0
    case Neutral => 1
    case BearishPressure => 2
  }

  function Mirror(m: Sentiment): Sentiment {
    match m
    case Bullish => BearishPressure
    case Neutral => Neutral
    case BearishPressure => Bullish
  }

  /** Swapping the bid and offer sides swaps bearish and bullish and keeps neutral. */
  lemma SentimentMirror(bid: nat, offer: nat)
    ensures SentimentOf(offer, bid) == Mirror(SentimentOf(bid, offer))
  {
  }

  /** More offer volume never makes the sentiment less bearish. */
  lemma SentimentMonotoneInOffer(bid: nat, offer: nat, offer': nat)
    requires offer <= offer'
    ensures Rank(SentimentOf(bid, offer)) <= Rank(SentimentOf(bid, offer'))
  {
  }

  /** The sentiment is neutral exactly when the imbalance stays within the band. */
  lemma NeutralWithinBand(bid: nat, offer: nat)
    ensures SentimentOf(bid, offer) == Neutral <==> -IMBALANCE_BAND <= Imbalance(bid, offer) <= IMBALANCE_BAND
  {
  }
}
