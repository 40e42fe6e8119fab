/** The in-memory measurement log: an append-only list of (timestamp, distance, quality) records
    with queries for the most recent entries. */
module Measurements {
  import opened Wrappers

  datatype Measurement = Measurement(timestamp: real, distance: real, quality: real)

  /** Where Python's slice `s[start:]` begins in a list of length `n`: a negative start counts
      from the end, and both kinds are clamped into the list. */
  function SliceStart(start: int, n: nat): (k: nat)
    ensures k <= n
    ensures start >= 0 ==> k == (if start <= n then start else n)
    ensures start < 0 ==> k == (if -start <= n then n + start else 0)
  {
    if start < 0 then (if n + start < 0 then 0 else n + start)
    else if start > n then n
    else start
  }

  /** `get_measurements(count)`: the whole list for no count, else `measurements[-count:]`. */
  function Recent(ms: seq<Measurement>, count: Option<int>): seq<Measurement> {
    if count.None? then ms else ms[SliceStart(-count.value, |ms|)..]
  }

  /** A positive count gives the last `min(count, n)` entries, in their original order. */
  lemma RecentPositive(ms: seq<Measurement>, k: int)
    requires k > 0
    ensures var r := Recent(ms, Some(k));
      |r| == (if k <= |ms| then k else |ms|) && ms == ms[..|ms| - |r|] + r
  {
    var r := Recent(ms, Some(k));
    assert ms == ms[..|ms| - |r|] + ms[|ms| - |r|..];
  }

  /** A count of zero gives the whole list, as `[-0:]` is `[0:]`. */
  lemma RecentZero(ms: seq<Measurement>)
    ensures Recent(ms, Some(0)) == ms
  {
    assert ms[0..] == ms;
  }

  /** A negative count `-k` drops the first `k` entries instead. */
  lemma RecentNegative(ms: seq<Measurement>, k: int)
    requires k < 0
    ensures var r := Recent(ms, Some(k));
      |r| == (if -k <= |ms| then |ms| + k else 0) && ms == ms[..|ms| - |r|] + r
  {
    var r := Recent(ms, Some(k));
    assert ms == ms[..|ms| - |r|] + ms[|ms| - |r|..];
  }

  /** Right after an entry is added, the one most recent entry is that entry. */
  lemma LatestIsLastAdded(ms: seq<Measurement>, m: Measurement)
    ensures Recent(ms + [m], Some(1)) == [m]
  {
  }

  class MeasurementModel {
    var measurements: seq<Measurement>
    var sessionId: Option<string>

    constructor ()
      ensures measurements == [] && sessionId.None?
    {
      measurements := [];
      sessionId := None;
    }

    /** `timestamp` is the clock reading taken when the entry is added. */
    method AddMeasurement(timestamp: real, distance: real, quality: real) returns (count: nat)
      modifies this
      ensures measurements == old(measurements) + [Measurement(timestamp, distance, quality)]
      ensures count == |measurements| && sessionId == old(sessionId)
    {
      measurements := measurements + [Measurement(timestamp, distance, quality)];
      count := |measurements|;
    }

    method GetMeasurements(count: Option<int>) returns (r: seq<Measurement>)
      ensures r == Recent(measurements, count)
    {
      if count.None? {
        return measurements;
      }
      var start := -count.value;
      var n := |measurements|;
      var k: nat;
      if start < 0 {
        k := if n + start < 0 then 0 else n + start;
      } else {
        k := if start > n then n else start;
      }
      r := measurements[k..];
    }

    method GetDistances(count: Option<int>) returns (r: seq<real>)
      ensures |r| == |Recent(measurements, count)|
      ensures forall i :: 0 <= i < |r| ==> r[i] == Recent(measurements, count)[i].distance
    {
      var ms := GetMeasurements(count);
      r := seq(|ms|, i requires 0 <= i < |ms| => ms[i].distance);
    }

    method GetQualityValues(count: Option<int>) returns (r: seq<real>)
      ensures |r| == |Recent(measurements, count)|
      ensures forall i :: 0 <= i < |r| ==> r[i] == Recent(measurements, count)[i].quality
    {
      var ms := GetMeasurements(count);
      r := seq(|ms|, i requires 0 <= i < |ms| => ms[i].quality);
    }

    method ClearMeasurements()
      modifies this
      ensures measurements == [] && sessionId == old(sessionId)
    {
      measurements := [];
    }
  }
}
