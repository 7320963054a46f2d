// The rates reported for a window: overall speed and hourly peak of one aggregation.
module StatsSummary {
  import opened StatsWindow
  import opened StatsPeaks

  /** One side of the traffic. */
  datatype Side = InputSide | OutputSide

  function TokensOf(t: Totals, side: Side): nat { if side.InputSide? then t.input else t.output }

  function HourPoint(rows: seq<Event>, hour: string, side: Side): Hour {
    var t := GroupTotal(rows, HourOf, hour);
    Hour(TokensOf(t, side), t.durationMs, t.requests)
  }

  function HourPoints(rows: seq<Event>, hours: seq<string>, side: Side): (r: seq<Hour>)
    ensures |r| == |hours| && forall i :: 0 <= i < |r| ==> r[i] == HourPoint(rows, hours[i], side)
  {
    seq(|hours|, i requires 0 <= i < |hours| => HourPoint(rows, hours[i], side))
  }

  lemma {:induction false} PointsAddUp(rows: seq<Event>, hours: seq<string>, side: Side, n: nat)
    requires n <= |hours|
    ensures var points := HourPoints(rows, hours, side)[..n]; var t := SumGroups(rows, HourOf, hours, n);
            TotalTokens(points) == TokensOf(t, side) && TotalMs(points) == t.durationMs && TotalRequests(points) == t.requests
    decreases n
  {
    hide GroupTotal;
    if n > 0 {
      PointsAddUp(rows, hours, side, n - 1);
      var points := HourPoints(rows, hours, side);
      assert points[..n][..n - 1] == points[..n - 1];
    }
  }

  lemma EveryHourHasARequest(rows: seq<Event>, hours: seq<string>, side: Side)
    requires GroupKeys(hours, rows, HourOf)
    ensures Populated(HourPoints(rows, hours, side))
  {
    forall j | 0 <= j < |hours| ensures GroupTotal(rows, HourOf, hours[j]).requests > 0 {
      var i :| 0 <= i < |rows| && HourOf(rows[i]) == hours[j];
      GroupOccupied(rows, HourOf, i);
    }
  }

  /** The overall rate of a window, computed from its totals, does not exceed the reported peak when
      every hour, or no hour, has a recorded duration. */
  lemma WindowRateWithinPeak(rows: seq<Event>, hours: seq<string>, side: Side)
    requires GroupKeys(hours, rows, HourOf) && !Mixed(HourPoints(rows, hours, side))
    ensures var t := Sum(rows);
            TokenSpeed(if side == InputSide then t.input else t.output, DurationSeconds(t.durationMs, t.requests)) <=
              Peak(HourPoints(rows, hours, side))
  {
    hide GroupTotal;
    hide TokenSpeed;
    hide DurationSeconds;
    var points := HourPoints(rows, hours, side);
    EveryHourHasARequest(rows, hours, side);
    UnmixedSpeedBounded(points);
    PointsAddUp(rows, hours, side, |hours|);
    assert points[..|hours|] == points;
    GroupsAddUp(rows, HourOf, hours);
  }
}
