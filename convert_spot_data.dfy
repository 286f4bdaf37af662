/**
 * Preparation of a raw spot-price series (convert_spot_data.py): null entries
 * are dropped, every kept price is stamped with the time of its original
 * index, and the result is a price series in EUR/MWh.
 *
 * A timestamp is the number of minutes after 2024-01-01T00:00.
 */
module SpotConversion {
  import opened Wrappers
  import opened StorageModel

  /** A raw series: one nullable price per interval of `interval` minutes. */
  datatype SpotData = SpotData(data: seq<Option<real>>, interval: int)

  const Unit: string := "EUR/MWh"

  /** Minutes after the start of the series at which sample i was taken. */
  function Timestamp(i: int, interval: int): int {
    i * interval
  }

  /** The data points of a raw series, built front to back as by the conversion loop. */
  function Formatted(data: seq<Option<real>>, interval: int): seq<DataPoint> {
    if |data| == 0 then []
    else
      var i := |data| - 1;
      Formatted(data[..i], interval)
      + (if data[i].Some? then [DataPoint(Timestamp(i, interval), data[i].value)] else [])
  }

  /** The indices of the non-null entries, in increasing order. */
  function NonNullIndices(data: seq<Option<real>>): seq<int> {
    if |data| == 0 then []
    else
      var i := |data| - 1;
      NonNullIndices(data[..i]) + (if data[i].Some? then [i] else [])
  }

  /** The non-null values of a series, in order: the series with its gaps removed. */
  function NonNullValues(data: seq<Option<real>>): seq<real> {
    if |data| == 0 then []
    else Kept(data[0]) + NonNullValues(data[1..])
  }

  function Kept(x: Option<real>): seq<real> {
    if x.Some? then [x.value] else []
  }

  function Values(points: seq<DataPoint>): seq<real> {
    seq(|points|, k requires 0 <= k < |points| => points[k].value)
  }

  method ConvertSpotData(spotData: SpotData) returns (r: InputData)
    ensures r.unit == Unit
    ensures r.data == Formatted(spotData.data, spotData.interval)
  {
    var formatted: seq<DataPoint> := [];
    for i := 0 to |spotData.data|
      invariant formatted == Formatted(spotData.data[..i], spotData.interval)
    {
      assert spotData.data[..i + 1][..i] == spotData.data[..i];
      var value := spotData.data[i];
      if value.None? {
        continue;
      }
      var date := Timestamp(i, spotData.interval);
      formatted := formatted + [DataPoint(date, value.value)];
    }
    assert spotData.data[..|spotData.data|] == spotData.data;
    r := InputData(Unit, formatted);
  }

  // ----- properties -----

  /**
   * Output point k comes from the k-th non-null input entry: it carries that
   * entry's value and the timestamp of that entry's original index.
   */
  lemma {:induction false} FormattedAt(data: seq<Option<real>>, interval: int)
    ensures |Formatted(data, interval)| == |NonNullIndices(data)|
    ensures forall k :: 0 <= k < |NonNullIndices(data)| ==>
      var i := NonNullIndices(data)[k];
      0 <= i < |data| && data[i].Some? && Formatted(data, interval)[k] == DataPoint(Timestamp(i, interval), data[i].value)
  {
    if |data| > 0 {
      var n := |data| - 1;
      var prefix := data[..n];
      FormattedAt(prefix, interval);
      assert forall i :: 0 <= i < n ==> prefix[i] == data[i];
    }
  }

  /** The kept indices are strictly increasing, so output order is input order. */
  lemma {:induction false} NonNullIndicesIncreasing(data: seq<Option<real>>)
    ensures forall k :: 0 <= k < |NonNullIndices(data)| ==> 0 <= NonNullIndices(data)[k] < |data|
    ensures forall j, k :: 0 <= j < k < |NonNullIndices(data)| ==> NonNullIndices(data)[j] < NonNullIndices(data)[k]
  {
    if |data| > 0 {
      NonNullIndicesIncreasing(data[..|data| - 1]);
    }
  }

  /** Indices are kept exactly when the entry is not null. */
  lemma {:induction false} NonNullIndicesExact(data: seq<Option<real>>)
    ensures forall i :: 0 <= i < |data| ==> (data[i].Some? <==> i in NonNullIndices(data))
  {
    if |data| > 0 {
      var n := |data| - 1;
      NonNullIndicesExact(data[..n]);
      NonNullIndicesIncreasing(data[..n]);
      assert forall i :: 0 <= i < n ==> data[..n][i] == data[i];
    }
  }

  lemma {:induction false} NonNullValuesSnoc(data: seq<Option<real>>, x: Option<real>)
    ensures NonNullValues(data + [x]) == NonNullValues(data) + Kept(x)
  {
    var d := data + [x];
    if |data| == 0 {
      assert d == [x];
      assert d[1..] == [];
      assert NonNullValues(d) == Kept(x) + [];
    } else {
      assert d[0] == data[0];
      assert d[1..] == data[1..] + [x];
      NonNullValuesSnoc(data[1..], x);
      calc {
        NonNullValues(d);
        Kept(data[0]) + NonNullValues(data[1..] + [x]);
        Kept(data[0]) + (NonNullValues(data[1..]) + Kept(x));
        (Kept(data[0]) + NonNullValues(data[1..])) + Kept(x);
      }
    }
  }

  /** The output values are the input with its nulls removed, in order and unchanged. */
  lemma {:induction false} FormattedValues(data: seq<Option<real>>, interval: int)
    ensures Values(Formatted(data, interval)) == NonNullValues(data)
  {
    if |data| > 0 {
      var n := |data| - 1;
      FormattedValues(data[..n], interval);
      assert data == data[..n] + [data[n]];
      NonNullValuesSnoc(data[..n], data[n]);
    }
  }

  /** There are as many output points as non-null inputs. */
  lemma {:induction false} FormattedLength(data: seq<Option<real>>, interval: int)
    ensures |Formatted(data, interval)| == |NonNullValues(data)|
  {
    FormattedValues(data, interval);
  }

  /** An empty or all-null series gives no data points. */
  lemma {:induction false} AllNullGivesEmpty(data: seq<Option<real>>, interval: int)
    requires forall i :: 0 <= i < |data| ==> data[i].None?
    ensures Formatted(data, interval) == []
  {
    if |data| > 0 {
      AllNullGivesEmpty(data[..|data| - 1], interval);
    }
  }

  /** With a positive interval the output timestamps are strictly increasing. */
  lemma TimestampsIncreasing(data: seq<Option<real>>, interval: int)
    requires interval > 0
    ensures forall j, k :: 0 <= j < k < |Formatted(data, interval)| ==>
      Formatted(data, interval)[j].date < Formatted(data, interval)[k].date
  {
    FormattedAt(data, interval);
    NonNullIndicesIncreasing(data);
    var idx := NonNullIndices(data);
    forall j, k | 0 <= j < k < |idx|
      ensures Timestamp(idx[j], interval) < Timestamp(idx[k], interval)
    {
      MultiplyMonotonic(idx[j], idx[k], interval);
    }
  }

  lemma MultiplyMonotonic(a: int, b: int, c: int)
    requires a < b && c > 0
    ensures a * c < b * c
  {
  }
}
