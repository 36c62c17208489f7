/**
 * Trade ticks and `parse_trades` (set50.test7.py:58-61). A tick is a record
 * with a timestamp, a price, a volume and a type string; `parse_trades`
 * walks the list and attaches a parsed `dt` to each record in place.
 */
module Trades {
  import opened Wrappers
  import opened Clock

  /** The two type strings the analytics look for; any other string is neither side. */
  const BUY_KIND: string := "Aggressive Buy"
  const SELL_KIND: string := "Aggressive Sell"

  /** One trade record. `dt` is `None` until `ParseTrades` attaches the parsed time. */
  datatype Trade = Trade(timestamp: string, price: real, volume: nat, kind: string, dt: Option<ClockTime>)

  /** The record after `t["dt"] = strptime(t["timestamp"], "%H:%M")` succeeded on it. */
  function Attach(t: Trade): (r: Trade)
    requires ParseClock(t.timestamp).Some?
    ensures r.timestamp == t.timestamp && r.price == t.price && r.volume == t.volume && r.kind == t.kind
    ensures r.dt.Some? && Valid(r.dt.value) && FormatClock(r.dt.value) == t.timestamp
  {
    ParseThenFormat(t.timestamp);
    t.(dt := ParseClock(t.timestamp))
  }

  /** Every record of the list has a parsable timestamp. */
  predicate AllParse(s: seq<Trade>) {
    forall i | 0 <= i < |s| :: ParseClock(s[i].timestamp).Some?
  }

  /** Every record carries its parsed time: what the page's data frame holds after parsing. */
  predicate Stamped(s: seq<Trade>) {
    forall i | 0 <= i < |s| :: s[i].dt.Some? && Valid(s[i].dt.value)
  }

  /** The hour the period masks read (`trades_df['dt'].dt.hour`). */
  function Hour(t: Trade): (h: nat)
    requires t.dt.Some? && Valid(t.dt.value)
    ensures h < 24
  {
    t.dt.value.hour
  }

  /** Index of the first record whose timestamp fails to parse, if any. */
  function FirstBadTimestamp(s: seq<Trade>): (r: Option<nat>)
    ensures r.None? <==> AllParse(s)
    ensures r.Some? ==> r.value < |s| && ParseClock(s[r.value].timestamp).None?
    ensures r.Some? ==> AllParse(s[..r.value])
  {
    if s == [] then None
    else if ParseClock(s[0].timestamp).None? then Some(0)
    else match FirstBadTimestamp(s[1..])
      case None => None
      case Some(k) =>
        assert s[1..][..k] == s[1..k + 1];
        Some(k + 1)
  }

  /** The whole list after a successful parse: every record stamped, in the same order. */
  function AttachAll(s: seq<Trade>): (r: seq<Trade>)
    requires AllParse(s)
    ensures |r| == |s| && Stamped(r)
    ensures forall i | 0 <= i < |s| :: r[i] == Attach(s[i])
  {
    seq(|s|, i requires 0 <= i < |s| => Attach(s[i]))
  }

  /**
   * `parse_trades`: attaches `dt` to each record in order. When a timestamp
   * does not parse, strptime raises there: the records before it already
   * carry `dt`, that record and the ones after it are untouched, and the
   * index of the offending record is returned.
   */
  method ParseTrades(a: array<Trade>) returns (err: Option<nat>)
    modifies a
    ensures err == FirstBadTimestamp(old(a[..]))
    ensures err.None? ==> AllParse(old(a[..])) && a[..] == AttachAll(old(a[..]))
    ensures err.Some? ==> forall i | 0 <= i < a.Length ::
      a[i] == if i < err.value then Attach(old(a[i])) else old(a[i])
  {
    var i := 0;
    while i < a.Length
      invariant 0 <= i <= a.Length
      invariant forall j | 0 <= j < i :: ParseClock(old(a[j]).timestamp).Some?
      invariant forall j | 0 <= j < a.Length ::
        a[j] == if j < i then Attach(old(a[j])) else old(a[j])
    {
      var c := ParseClock(a[i].timestamp);
      if c.None? {
        ghost var s := old(a[..]);
        assert ParseClock(s[i].timestamp).None?;
        assert AllParse(s[..i]);
        return Some(i);
      }
      a[i] := a[i].(dt := c);
      i := i + 1;
    }
    ghost var s := old(a[..]);
    assert AllParse(s);
    assert a[..] == AttachAll(s);
    return None;
  }
}
