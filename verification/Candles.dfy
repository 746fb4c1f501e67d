// Open, high, low, close and volume of consecutive candles, aggregated.

module Candles {
  import opened Wrappers

  datatype Ohlcv = Ohlcv(open: real, high: real, low: real, close: real, volume: Option<real>)

  function Max(a: real, b: real): real {
    if a >= b then a else b
  }

  function Min(a: real, b: real): real {
    if a <= b then a else b
  }

  function MaxHigh(candles: seq<Ohlcv>): real
    requires candles != []
  {
    if |candles| == 1 then candles[0].high else Max(candles[0].high, MaxHigh(candles[1..]))
  }

  function MinLow(candles: seq<Ohlcv>): real
    requires candles != []
  {
    if |candles| == 1 then candles[0].low else Min(candles[0].low, MinLow(candles[1..]))
  }

  /** Unknown volumes are skipped; a volume is unknown only when all of them are. */
  function AddVolumes(a: Option<real>, b: Option<real>): Option<real> {
    if a.None? then b else if b.None? then a else Some(a.value + b.value)
  }

  function TotalVolume(candles: seq<Ohlcv>): Option<real> {
    if candles == [] then None else AddVolumes(candles[0].volume, TotalVolume(candles[1..]))
  }

  function Aggregate(candles: seq<Ohlcv>): Ohlcv
    requires candles != []
  {
    Ohlcv(candles[0].open, MaxHigh(candles), MinLow(candles), candles[|candles| - 1].close, TotalVolume(candles))
  }

  // ---------------------------------------------------------------------
  // Aggregating in two stages

  lemma {:induction false} TotalVolumeOfBoth(a: seq<Ohlcv>, b: seq<Ohlcv>)
    ensures TotalVolume(a + b) == AddVolumes(TotalVolume(a), TotalVolume(b))
  {
    if a == [] {
      assert a + b == b;
    } else {
      assert (a + b)[0] == a[0] && (a + b)[1..] == a[1..] + b;
      TotalVolumeOfBoth(a[1..], b);
    }
  }

  lemma {:induction false} RangeOfBoth(a: seq<Ohlcv>, b: seq<Ohlcv>)
    requires a != [] && b != []
    ensures MaxHigh(a + b) == Max(MaxHigh(a), MaxHigh(b))
    ensures MinLow(a + b) == Min(MinLow(a), MinLow(b))
  {
    assert (a + b)[0] == a[0] && (a + b)[1..] == a[1..] + b;
    if |a| == 1 {
      assert a[1..] + b == b;
    } else {
      RangeOfBoth(a[1..], b);
    }
  }

  function Flatten(parts: seq<seq<Ohlcv>>): seq<Ohlcv> {
    if parts == [] then [] else parts[0] + Flatten(parts[1..])
  }

  predicate NoneEmpty(parts: seq<seq<Ohlcv>>) {
    forall i :: 0 <= i < |parts| ==> parts[i] != []
  }

  function Aggregates(parts: seq<seq<Ohlcv>>): (r: seq<Ohlcv>)
    requires NoneEmpty(parts)
    ensures |r| == |parts|
  {
    seq(|parts|, i requires 0 <= i < |parts| => Aggregate(parts[i]))
  }

  lemma AggregateOfOne(candle: Ohlcv)
    ensures Aggregate([candle]) == candle
  {
    assert TotalVolume([candle][1..]) == None;
  }

  /** Aggregating aggregates of consecutive parts is aggregating the parts laid end to end. */
  lemma {:induction false} AggregateOfAggregates(parts: seq<seq<Ohlcv>>)
    requires parts != [] && NoneEmpty(parts)
    ensures Flatten(parts) != []
    ensures Aggregate(Aggregates(parts)) == Aggregate(Flatten(parts))
  {
    if |parts| == 1 {
      assert Flatten(parts[1..]) == [];
      assert Flatten(parts) == parts[0];
      assert Aggregates(parts) == [Aggregate(parts[0])];
      AggregateOfOne(Aggregate(parts[0]));
    } else {
      var rest := parts[1..];
      AggregateOfAggregates(rest);
      assert Aggregates(parts)[1..] == Aggregates(rest);
      RangeOfBoth(parts[0], Flatten(rest));
      TotalVolumeOfBoth(parts[0], Flatten(rest));
    }
  }
}
